/** The fixed demo catalogue of videos for sale. */
module Catalogue {
  import opened Wrappers

  datatype Video = Video(id: string, title: string, filename: string, priceKobo: nat)

  /** `VIDEOS`: prices are in kobo (hundredths of a naira). */
  const VIDEOS: seq<Video> := [
    Video("vid1", "Sample Video 1", "sample1.mp4", 50000),
    Video("vid2", "Sample Video 2", "sample2.mp4", 80000)
  ]

  /** `next((v for v in VIDEOS if v["id"] == video_id), None)`: the first entry with that id. */
  function Find(catalogue: seq<Video>, id: string): (r: Option<Video>)
    ensures r.None? <==> forall k :: 0 <= k < |catalogue| ==> catalogue[k].id != id
    ensures r.Some? ==> exists k :: 0 <= k < |catalogue| && catalogue[k] == r.value && r.value.id == id
                                    && forall j :: 0 <= j < k ==> catalogue[j].id != id
  {
    if catalogue == [] then None
    else if catalogue[0].id == id then Some(catalogue[0])
    else
      var r := Find(catalogue[1..], id);
      assert forall k :: 1 <= k < |catalogue| ==> catalogue[k] == catalogue[1..][k - 1];
      r
  }

  /** The ids of the demo catalogue are distinct. */
  lemma DistinctIds()
    ensures forall i, j :: 0 <= i < j < |VIDEOS| ==> VIDEOS[i].id != VIDEOS[j].id
  {
  }

  /** With distinct ids, a lookup finds the entry at the position of its id. */
  lemma FindAt(catalogue: seq<Video>, k: nat)
    requires k < |catalogue|
    requires forall i, j :: 0 <= i < j < |catalogue| ==> catalogue[i].id != catalogue[j].id
    ensures Find(catalogue, catalogue[k].id) == Some(catalogue[k])
  {
  }

  /** The two demo entries and an id outside the catalogue. */
  lemma CatalogueLookups()
    ensures Find(VIDEOS, "vid1") == Some(VIDEOS[0]) && Find(VIDEOS, "vid1").value.priceKobo == 50000
    ensures Find(VIDEOS, "vid2") == Some(VIDEOS[1]) && Find(VIDEOS, "vid2").value.priceKobo == 80000
    ensures Find(VIDEOS, "vid3").None?
  {
    FindAt(VIDEOS, 0);
    FindAt(VIDEOS, 1);
  }
}
