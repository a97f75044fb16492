/** Choosing result URLs from a Serper payload: the loop that `/search` runs
    over the first five organic records and `/find_house` over the first three.
    The loop slices first and filters second, so fewer links than the limit can
    come out even when later records carry links. */
module UrlSelection {
  import opened JsonValue

  /** Records examined by `/search`. */
  const SearchUrlLimit: nat := 5

  /** Records examined by `/find_house`. */
  const PipelineUrlLimit: nat := 3

  /** Python's slice `s[:n]` for a non-negative `n`. */
  function Take<T>(s: seq<T>, n: nat): (r: seq<T>)
    ensures |r| <= n && |r| <= |s|
    ensures n <= |s| ==> |r| == n
    ensures |s| <= n ==> r == s
    ensures r <= s
  {
    if n < |s| then s[..n] else s
  }

  /** What `'organic' in payload` followed by `payload['organic'][:n]` yields. */
  datatype Organic =
    | Absent              // the membership test is false: no URLs
    | Records(items: seq<Json>)
    | Characters          // a string: its one-character pieces never contain "link"
    | Raises              // the lookup or the slice raises TypeError / KeyError

  function OrganicOf(payload: Json): Organic
  {
    match payload
    case Obj(fields) =>
      if "organic" !in fields then Absent
      else (
        match fields["organic"]
        case Arr(items) => Records(items)
        case Str(_) => Characters
        case _ => Raises)
    case Arr(items) => if Str("organic") in items then Raises else Absent
    case Str(s) => if Contains(s, "organic") then Raises else Absent
    case _ => Raises
  }

  /** What `if 'link' in result: urls.append(result['link'])` does with one record. */
  datatype Record = Linked(link: Json) | Unlinked | Unreadable

  function RecordOf(result: Json): Record
  {
    match result
    case Obj(fields) => if "link" in fields then Linked(fields["link"]) else Unlinked
    case Arr(items) => if Str("link") in items then Unreadable else Unlinked
    case Str(s) => if Contains(s, "link") then Unreadable else Unlinked
    case _ => Unreadable
  }

  /** `OrganicOf` case by case: an object without `organic` selects nothing; a
      list under `organic` is sliced; a string under `organic` yields
      characters; any other value under `organic` raises; a list or a string
      payload raises exactly when it contains "organic"; a number, a boolean or
      null raises. */
  lemma OrganicOfCases(payload: Json)
    ensures payload.Obj? && "organic" !in payload.fields ==> OrganicOf(payload) == Absent
    ensures payload.Obj? && "organic" in payload.fields ==>
              var organic := payload.fields["organic"];
              && (organic.Arr? ==> OrganicOf(payload) == Records(organic.items))
              && (organic.Str? ==> OrganicOf(payload) == Characters)
              && (!organic.Arr? && !organic.Str? ==> OrganicOf(payload) == Raises)
    ensures payload.Arr? ==>
              OrganicOf(payload) == (if Str("organic") in payload.items then Raises else Absent)
    ensures payload.Str? ==>
              (OrganicOf(payload) == Raises <==>
                 exists i :: 0 <= i <= |payload.s| && StartsWith(payload.s[i..], "organic"))
    ensures payload.Str? ==> OrganicOf(payload).Raises? || OrganicOf(payload).Absent?
    ensures payload.Null? || payload.Bool? || payload.Num? ==> OrganicOf(payload) == Raises
  {
    if payload.Str? {
      ContainsIffOccurs(payload.s, "organic");
    }
  }

  /** `RecordOf` case by case: an object offers its `link` when it has one; a
      list or a string raises exactly when it contains "link"; a number, a
      boolean or null raises. */
  lemma RecordOfCases(result: Json)
    ensures result.Obj? ==>
              RecordOf(result) == (if "link" in result.fields then Linked(result.fields["link"]) else Unlinked)
    ensures result.Arr? ==>
              RecordOf(result) == (if Str("link") in result.items then Unreadable else Unlinked)
    ensures result.Str? ==>
              (RecordOf(result) == Unreadable <==>
                 exists i :: 0 <= i <= |result.s| && StartsWith(result.s[i..], "link"))
    ensures result.Str? ==> !RecordOf(result).Linked?
    ensures result.Null? || result.Bool? || result.Num? ==> RecordOf(result) == Unreadable
  {
    if result.Str? {
      ContainsIffOccurs(result.s, "link");
    }
  }

  /** Why a string under `organic` selects nothing: each one-character piece
      is too short to contain "link". */
  lemma CharacterHasNoLink(c: char)
    ensures RecordOf(Str([c])) == Unlinked
  {
    ShortNeverContains([c], "link");
  }

  /** The URL list, or the exception that the selection loop raises. */
  datatype Selection = Urls(urls: seq<Json>) | ShapeError

  /** The links of `records`, in order and with repetitions, or a shape error
      when some record makes the loop raise. */
  function Links(records: seq<Json>): Selection
  {
    if records == [] then Urls([])
    else
      match RecordOf(records[0])
      case Unreadable => ShapeError
      case Unlinked => Links(records[1..])
      case Linked(link) =>
        match Links(records[1..])
        case ShapeError => ShapeError
        case Urls(rest) => Urls([link] + rest)
  }

  /** Running the loop over one stretch of records and then over the next. */
  function Then(first: Selection, second: Selection): Selection
  {
    match (first, second)
    case (Urls(u), Urls(v)) => Urls(u + v)
    case _ => ShapeError
  }

  /** The URL list chosen from `payload` when at most `limit` records are examined. */
  function Selected(payload: Json, limit: nat): (sel: Selection)
    ensures OrganicOf(payload).Absent? ==> sel == Urls([])
    ensures sel.Urls? ==> |sel.urls| <= limit
    ensures sel.Urls? && OrganicOf(payload).Records? ==>
              |sel.urls| <= |OrganicOf(payload).items|
  {
    match OrganicOf(payload)
    case Absent => Urls([])
    case Characters => Urls([])
    case Raises => ShapeError
    case Records(items) =>
      LinksLength(Take(items, limit));
      Links(Take(items, limit))
  }

  /** The selection loop: `for result in organic[:limit]: if 'link' in result: ...`. */
  method SelectUrls(payload: Json, limit: nat) returns (sel: Selection)
    ensures sel == Selected(payload, limit)
  {
    match OrganicOf(payload)
    case Absent => sel := Urls([]);
    case Characters => sel := Urls([]);
    case Raises => sel := ShapeError;
    case Records(items) =>
      var window := Take(items, limit);
      var urls: seq<Json> := [];
      var i := 0;
      while i < |window|
        invariant 0 <= i <= |window|
        invariant Links(window[..i]) == Urls(urls)
      {
        assert window[..i + 1] == window[..i] + [window[i]];
        LinksAppend(window[..i], [window[i]]);
        match RecordOf(window[i]) {
          case Unreadable =>
            assert window == window[..i + 1] + window[i + 1..];
            LinksAppend(window[..i + 1], window[i + 1..]);
            return ShapeError;
          case Unlinked =>
          case Linked(link) =>
            urls := urls + [link];
        }
        i := i + 1;
      }
      assert window[..i] == window;
      sel := Urls(urls);
  }

  // ---------------------------------------------------------------------
  // Properties of the selection.

  /** The loop over `a + b` is the loop over `a` followed by the loop over `b`:
      order is kept and nothing is merged or dropped between the two parts. */
  lemma {:induction false} LinksAppend(a: seq<Json>, b: seq<Json>)
    ensures Links(a + b) == Then(Links(a), Links(b))
    decreases |a|
  {
    if a == [] {
      assert a + b == b;
    } else {
      assert (a + b)[0] == a[0];
      assert (a + b)[1..] == a[1..] + b;
      LinksAppend(a[1..], b);
      match RecordOf(a[0])
      case Unreadable =>
      case Unlinked =>
      case Linked(link) =>
        match (Links(a[1..]), Links(b))
        case (Urls(u), Urls(v)) =>
          assert [link] + (u + v) == ([link] + u) + v;
        case _ =>
    }
  }

  /** The loop never yields more URLs than it examines records. */
  lemma {:induction false} LinksLength(records: seq<Json>)
    ensures Links(records).Urls? ==> |Links(records).urls| <= |records|
    decreases |records|
  {
    if records != [] {
      LinksLength(records[1..]);
    }
  }

  /** `idx` lists, in increasing order, the positions of exactly those records
      that carry a link, and `urls[k]` is the link of record `idx[k]`. */
  ghost predicate PicksLinks(records: seq<Json>, urls: seq<Json>, idx: seq<nat>)
  {
    && |idx| == |urls|
    && LinksAt(records, urls, idx)
    && Increasing(idx)
    && CoversLinks(records, idx)
  }

  ghost predicate LinksAt(records: seq<Json>, urls: seq<Json>, idx: seq<nat>)
    requires |idx| == |urls|
  {
    forall k :: 0 <= k < |idx| ==> idx[k] < |records| && RecordOf(records[idx[k]]) == Linked(urls[k])
  }

  ghost predicate Increasing(idx: seq<nat>)
  {
    forall k, m :: 0 <= k < m < |idx| ==> idx[k] < idx[m]
  }

  ghost predicate CoversLinks(records: seq<Json>, idx: seq<nat>)
  {
    forall j :: 0 <= j < |records| && RecordOf(records[j]).Linked? ==> j in idx
  }

  function Shifted(idx: seq<nat>): (r: seq<nat>)
    ensures |r| == |idx| && forall k :: 0 <= k < |idx| ==> r[k] == idx[k] + 1
  {
    seq(|idx|, k requires 0 <= k < |idx| => idx[k] + 1)
  }

  /** Positions picked in `records[1..]` are picked in `records` one further on. */
  lemma ShiftedPicks(records: seq<Json>, urls: seq<Json>, tailIdx: seq<nat>)
    requires records != []
    requires PicksLinks(records[1..], urls, tailIdx)
    ensures |Shifted(tailIdx)| == |urls| && LinksAt(records, urls, Shifted(tailIdx))
    ensures Increasing(Shifted(tailIdx))
    ensures forall k :: 0 <= k < |tailIdx| ==> 0 < Shifted(tailIdx)[k]
    ensures forall j :: 1 <= j < |records| && RecordOf(records[j]).Linked? ==> j in Shifted(tailIdx)
  {
    var tail, shifted := records[1..], Shifted(tailIdx);
    forall k | 0 <= k < |shifted|
      ensures shifted[k] < |records| && RecordOf(records[shifted[k]]) == Linked(urls[k])
    {
      assert records[shifted[k]] == tail[tailIdx[k]];
    }
    forall j | 1 <= j < |records| && RecordOf(records[j]).Linked?
      ensures j in shifted
    {
      assert records[j] == tail[j - 1];
      assert j - 1 in tailIdx;
      var k :| 0 <= k < |tailIdx| && tailIdx[k] == j - 1;
      assert shifted[k] == j;
    }
  }

  /** A record with a link in front of `records[1..]` is picked at position 0. */
  lemma ConsPicks(records: seq<Json>, tailUrls: seq<Json>, tailIdx: seq<nat>)
    requires records != [] && RecordOf(records[0]).Linked?
    requires PicksLinks(records[1..], tailUrls, tailIdx)
    ensures PicksLinks(records, [RecordOf(records[0]).link] + tailUrls, [0] + Shifted(tailIdx))
  {
    ShiftedPicks(records, tailUrls, tailIdx);
    ConsLinksAt(records, tailUrls, Shifted(tailIdx));
    ConsIncreasing(Shifted(tailIdx));
    ConsCovers(records, Shifted(tailIdx));
  }

  lemma ConsLinksAt(records: seq<Json>, tailUrls: seq<Json>, shifted: seq<nat>)
    requires records != [] && RecordOf(records[0]).Linked?
    requires |shifted| == |tailUrls| && LinksAt(records, tailUrls, shifted)
    ensures LinksAt(records, [RecordOf(records[0]).link] + tailUrls, [0] + shifted)
  {
    var idx, urls := [0] + shifted, [RecordOf(records[0]).link] + tailUrls;
    forall k | 0 <= k < |idx|
      ensures idx[k] < |records| && RecordOf(records[idx[k]]) == Linked(urls[k])
    {
      if k > 0 {
        assert idx[k] == shifted[k - 1] && urls[k] == tailUrls[k - 1];
      }
    }
  }

  lemma ConsIncreasing(shifted: seq<nat>)
    requires Increasing(shifted)
    requires forall k :: 0 <= k < |shifted| ==> 0 < shifted[k]
    ensures Increasing([0] + shifted)
  {
    var idx := [0] + shifted;
    forall k, m | 0 <= k < m < |idx|
      ensures idx[k] < idx[m]
    {
      assert idx[m] == shifted[m - 1];
      if k > 0 {
        assert idx[k] == shifted[k - 1];
      }
    }
  }

  lemma ConsCovers(records: seq<Json>, shifted: seq<nat>)
    requires forall j :: 1 <= j < |records| && RecordOf(records[j]).Linked? ==> j in shifted
    ensures CoversLinks(records, [0] + shifted)
  {
    var idx := [0] + shifted;
    forall j | 0 <= j < |records| && RecordOf(records[j]).Linked?
      ensures j in idx
    {
      if j == 0 {
        assert idx[0] == 0;
      } else {
        assert j in shifted;
      }
    }
  }

  /** A record without a link in front of `records[1..]` is skipped. */
  lemma SkipPicks(records: seq<Json>, tailUrls: seq<Json>, tailIdx: seq<nat>)
    requires records != [] && RecordOf(records[0]).Unlinked?
    requires PicksLinks(records[1..], tailUrls, tailIdx)
    ensures PicksLinks(records, tailUrls, Shifted(tailIdx))
  {
    ShiftedPicks(records, tailUrls, tailIdx);
  }

  /** Every URL is the link of an examined record, every record with a link
      contributes its link, relative order is kept, and duplicates stay. */
  lemma {:induction false} LinksPicksEveryLink(records: seq<Json>) returns (idx: seq<nat>)
    requires Links(records).Urls?
    ensures PicksLinks(records, Links(records).urls, idx)
    decreases |records|
  {
    if records == [] {
      idx := [];
    } else {
      var tail := records[1..];
      var tailIdx := LinksPicksEveryLink(tail);
      if RecordOf(records[0]).Linked? {
        ConsPicks(records, Links(tail).urls, tailIdx);
        idx := [0] + Shifted(tailIdx);
      } else {
        SkipPicks(records, Links(tail).urls, tailIdx);
        idx := Shifted(tailIdx);
      }
    }
  }

  /** What `Selected` yields, stated on the payload: every URL is the link of
      one of the first `limit` organic records, and the URLs are exactly the
      links of those records, in order and with duplicates kept. */
  lemma SelectedPicksLinks(payload: Json, limit: nat)
    requires Selected(payload, limit).Urls?
    ensures !OrganicOf(payload).Records? ==> Selected(payload, limit).urls == []
    ensures OrganicOf(payload).Records? ==>
              exists idx :: PicksLinks(Take(OrganicOf(payload).items, limit),
                                       Selected(payload, limit).urls, idx)
    ensures forall k :: 0 <= k < |Selected(payload, limit).urls| ==>
              && OrganicOf(payload).Records?
              && exists j :: 0 <= j < limit && j < |OrganicOf(payload).items|
                   && RecordOf(OrganicOf(payload).items[j]) == Linked(Selected(payload, limit).urls[k])
  {
    if OrganicOf(payload).Records? {
      var items, urls := OrganicOf(payload).items, Selected(payload, limit).urls;
      var window := Take(items, limit);
      var idx := LinksPicksEveryLink(window);
      forall k | 0 <= k < |urls|
        ensures exists j :: 0 <= j < limit && j < |items| && RecordOf(items[j]) == Linked(urls[k])
      {
        var j := idx[k];
        assert window[j] == items[j];
      }
    }
  }

  /** A payload shaped as the search API documents it (an object whose
      `organic` entry, if any, is a list of objects) never makes the loop raise. */
  ghost predicate WellShaped(payload: Json)
  {
    && payload.Obj?
    && ("organic" in payload.fields ==>
          && payload.fields["organic"].Arr?
          && forall i :: 0 <= i < |payload.fields["organic"].items| ==>
               payload.fields["organic"].items[i].Obj?)
  }

  lemma {:induction false} ObjectRecordsNeverRaise(records: seq<Json>)
    requires forall i :: 0 <= i < |records| ==> records[i].Obj?
    ensures Links(records).Urls?
    decreases |records|
  {
    if records != [] {
      ObjectRecordsNeverRaise(records[1..]);
    }
  }

  lemma WellShapedSelects(payload: Json, limit: nat)
    requires WellShaped(payload)
    ensures Selected(payload, limit).Urls?
  {
    if OrganicOf(payload).Records? {
      var items := OrganicOf(payload).items;
      assert forall i :: 0 <= i < |Take(items, limit)| ==> Take(items, limit)[i] == items[i];
      ObjectRecordsNeverRaise(Take(items, limit));
    }
  }

  /** Examining fewer records gives a prefix of the URLs: what `/find_house`
      processes is the beginning of what `/search` returns for the same payload. */
  lemma SelectedPrefix(payload: Json, fewer: nat, more: nat)
    requires fewer <= more
    requires Selected(payload, more).Urls?
    ensures Selected(payload, fewer).Urls?
    ensures Selected(payload, fewer).urls <= Selected(payload, more).urls
  {
    if OrganicOf(payload).Records? {
      var items := OrganicOf(payload).items;
      var short, long := Take(items, fewer), Take(items, more);
      assert long == short + long[|short|..];
      LinksAppend(short, long[|short|..]);
    }
  }

  lemma PipelineUrlsPrefixSearchUrls(payload: Json)
    requires Selected(payload, SearchUrlLimit).Urls?
    ensures Selected(payload, PipelineUrlLimit).Urls?
    ensures Selected(payload, PipelineUrlLimit).urls <= Selected(payload, SearchUrlLimit).urls
  {
    SelectedPrefix(payload, PipelineUrlLimit, SearchUrlLimit);
  }

  /** Slicing before filtering: three link-less records followed by one with a
      link give no URL to `/find_house`, yet one URL to `/search`. */
  lemma SliceBeforeFilter()
    ensures
      var plain := Obj(map["title" := Str("listing")]);
      var linked := Obj(map["link" := Str("https://example.com/house")]);
      var payload := Obj(map["organic" := Arr([plain, plain, plain, linked])]);
      && Selected(payload, PipelineUrlLimit) == Urls([])
      && Selected(payload, SearchUrlLimit) == Urls([Str("https://example.com/house")])
  {
    var plain := Obj(map["title" := Str("listing")]);
    var linked := Obj(map["link" := Str("https://example.com/house")]);
    var records := [plain, plain, plain, linked];
    assert records[1..] == [plain, plain, linked];
    assert records[1..][1..] == [plain, linked];
    assert records[1..][1..][1..] == [linked];
    assert Take(records, PipelineUrlLimit) == [plain, plain, plain];
    assert [plain, plain, plain][1..] == [plain, plain];
    assert [plain, plain][1..] == [plain];
    assert [plain][1..] == [];
    assert [linked][1..] == [];
  }
}
