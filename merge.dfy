/**
 * `single_db_merge`: joins the visit records with the site records on the
 * place id, in memory. The site list is first loaded into a dictionary keyed
 * by place id, so when several sites share an id the last one wins; then each
 * visit yields one merged `Visit`, in input order.
 */
module Merging {
  import opened Wrappers
  import opened Records

  /** `j` is the last position of `sites` whose place id is `placeId`. */
  predicate IsLastMatch(sites: seq<MozPlace>, placeId: int, j: int)
  {
    && 0 <= j < |sites|
    && sites[j].placeId == placeId
    && forall k :: j < k < |sites| ==> sites[k].placeId != placeId
  }

  /**
   * The site a dictionary built by assigning `site_dict[s.place_id] = s` for
   * each `s` in order holds under `placeId`: the last site with that id.
   */
  function LastSiteFor(sites: seq<MozPlace>, placeId: int): Option<MozPlace>
  {
    if sites == [] then None
    else if sites[|sites| - 1].placeId == placeId then Some(sites[|sites| - 1])
    else LastSiteFor(sites[..|sites| - 1], placeId)
  }

  /**
   * The dictionary lookup finds nothing exactly when no site has the id, and
   * otherwise finds the site at the last position that has it.
   */
  lemma {:induction false} LastSiteForIsLastMatch(sites: seq<MozPlace>, placeId: int)
    ensures LastSiteFor(sites, placeId).None? <==> forall j :: 0 <= j < |sites| ==> sites[j].placeId != placeId
    ensures LastSiteFor(sites, placeId).Some? ==>
      exists j :: IsLastMatch(sites, placeId, j) && sites[j] == LastSiteFor(sites, placeId).value
  {
    if sites != [] {
      var n := |sites| - 1;
      if sites[n].placeId == placeId {
        assert IsLastMatch(sites, placeId, n);
      } else {
        var prefix := sites[..n];
        LastSiteForIsLastMatch(prefix, placeId);
        assert forall j :: 0 <= j < n ==> prefix[j] == sites[j];
        if LastSiteFor(prefix, placeId).Some? {
          var j :| IsLastMatch(prefix, placeId, j) && prefix[j] == LastSiteFor(prefix, placeId).value;
          assert IsLastMatch(sites, placeId, j);
        }
      }
    }
  }

  /** One merged record: the visit's own fields, and the three metadata fields of `site` if there is one. */
  function MergeVisit(v: MozVisit, site: Option<MozPlace>): Visit
  {
    match site
    case None => Visit(v.url, v.visitDate, v.visitType, None, None, None)
    case Some(s) => Visit(v.url, v.visitDate, v.visitType, s.title, s.description, s.previewImage)
  }

  /** What `single_db_merge` yields: one merged record per visit, in order. */
  function Merge(visits: seq<MozVisit>, sites: seq<MozPlace>): seq<Visit>
  {
    seq(|visits|, i requires 0 <= i < |visits| => MergeVisit(visits[i], LastSiteFor(sites, visits[i].placeId)))
  }

  function Lookup(siteDict: map<int, MozPlace>, placeId: int): Option<MozPlace>
  {
    if placeId in siteDict then Some(siteDict[placeId]) else None
  }

  /** `single_db_merge`, with its dictionary and its two loops. */
  method SingleDbMerge(visitList: seq<MozVisit>, siteList: seq<MozPlace>) returns (merged: seq<Visit>)
    ensures merged == Merge(visitList, siteList)
    ensures |merged| == |visitList|
    ensures forall i :: 0 <= i < |visitList| ==>
      merged[i].url == visitList[i].url &&
      merged[i].visitDate == visitList[i].visitDate &&
      merged[i].visitType == visitList[i].visitType
  {
    var siteDict: map<int, MozPlace> := map[];
    for n := 0 to |siteList|
      invariant forall placeId :: Lookup(siteDict, placeId) == LastSiteFor(siteList[..n], placeId)
    {
      var s := siteList[n];
      assert siteList[..n + 1][..n] == siteList[..n];
      siteDict := siteDict[s.placeId := s];
      assert siteList[..n + 1][n] == s;
    }
    assert siteList[..|siteList|] == siteList;

    merged := [];
    for n := 0 to |visitList|
      invariant |merged| == n
      invariant forall i :: 0 <= i < n ==> merged[i] == MergeVisit(visitList[i], LastSiteFor(siteList, visitList[i].placeId))
    {
      var v := visitList[n];
      var t, ds, pi := None, None, None;
      if v.placeId in siteDict {
        var s := siteDict[v.placeId];
        t := s.title;
        ds := s.description;
        pi := s.previewImage;
      }
      assert Lookup(siteDict, v.placeId) == LastSiteFor(siteList, v.placeId);
      merged := merged + [Visit(v.url, v.visitDate, v.visitType, t, ds, pi)];
    }
  }

  /** A visit whose place id no site carries gets no title, description or preview image. */
  lemma MergeUnmatchedHasNoMetadata(visits: seq<MozVisit>, sites: seq<MozPlace>, i: int)
    requires 0 <= i < |visits|
    requires forall j :: 0 <= j < |sites| ==> sites[j].placeId != visits[i].placeId
    ensures Merge(visits, sites)[i].title.None?
    ensures Merge(visits, sites)[i].description.None?
    ensures Merge(visits, sites)[i].previewImage.None?
  {
    LastSiteForIsLastMatch(sites, visits[i].placeId);
  }

  /** A visit whose place id some sites carry gets the metadata of the last of them. */
  lemma MergeCopiesLastMatch(visits: seq<MozVisit>, sites: seq<MozPlace>, i: int, j: int)
    requires 0 <= i < |visits|
    requires IsLastMatch(sites, visits[i].placeId, j)
    ensures Merge(visits, sites)[i].title == sites[j].title
    ensures Merge(visits, sites)[i].description == sites[j].description
    ensures Merge(visits, sites)[i].previewImage == sites[j].previewImage
  {
    LastSiteForIsLastMatch(sites, visits[i].placeId);
  }

  /** With no sites at all, no merged record has any metadata. */
  lemma MergeWithoutSites(visits: seq<MozVisit>)
    ensures forall i :: 0 <= i < |visits| ==>
      Merge(visits, [])[i] == Visit(visits[i].url, visits[i].visitDate, visits[i].visitType, None, None, None)
  {
  }
}
