/**
 * A tour: a name, a description and the ids of the locations it visits, in
 * order. `locationIDsToString` writes each id in decimal followed by a comma.
 */
module Tours {
  import opened JavaLang

  /** The text `locationIDsToString` produces: each id's decimal text and a ',' after it, in list order. */
  function IdsText(ids: seq<Int32>): (s: string)
    ensures s == "" <==> ids == []
  {
    if ids == [] then "" else IntToString(ids[0]) + "," + IdsText(ids[1..])
  }

  /** The position of the first ',' in `s`, None when there is none. */
  function IndexOfComma(s: string): (r: Option<nat>)
    ensures r.Some? ==> r.value < |s| && s[r.value] == ',' && ',' !in s[..r.value]
    ensures r.None? ==> ',' !in s
  {
    if s == [] then None
    else if s[0] == ',' then Some(0)
    else match IndexOfComma(s[1..])
      case None => None
      case Some(i) => assert s[..i + 1] == [s[0]] + s[1..][..i]; Some(i + 1)
  }

  /**
   * A decoder for the id text, used only to state that the encoding is
   * lossless (the tour itself never reads its text back): split at each ',',
   * parse every piece as a decimal integer, and require a final ','.
   */
  function ParseIds(s: string): Option<seq<int>>
    decreases |s|
  {
    if s == [] then Some([])
    else match IndexOfComma(s)
      case None => None
      case Some(i) =>
        match ParseInt(s[..i])
        case None => None
        case Some(id) =>
          match ParseIds(s[i + 1..])
          case None => None
          case Some(rest) => Some([id] + rest)
  }

  // ---------------------------------------------------------------------------
  // Properties

  lemma IntToStringHasNoComma(n: int)
    ensures ',' !in IntToString(n)
  {
  }

  lemma {:induction false} IndexOfCommaAfter(t: string, rest: string)
    requires ',' !in t
    ensures IndexOfComma(t + "," + rest) == Some(|t|)
  {
    if t != [] {
      assert (t + "," + rest)[1..] == t[1..] + "," + rest;
      IndexOfCommaAfter(t[1..], rest);
    }
  }

  /** Reading the text back recovers the list: the encoding is lossless. */
  lemma {:induction false} ParseIdsText(ids: seq<Int32>)
    ensures ParseIds(IdsText(ids)) == Some(ids)
  {
    if ids != [] {
      var t := IntToString(ids[0]);
      var s := IdsText(ids);
      IntToStringHasNoComma(ids[0]);
      IndexOfCommaAfter(t, IdsText(ids[1..]));
      assert s[..|t|] == t;
      assert s[|t| + 1..] == IdsText(ids[1..]);
      ParseIntToString(ids[0]);
      ParseIdsText(ids[1..]);
      assert [ids[0] as int] + ids[1..] == ids;
    }
  }

  /** Distinct lists (different order or different duplicates) give distinct text. */
  lemma IdsTextInjective(a: seq<Int32>, b: seq<Int32>)
    requires IdsText(a) == IdsText(b)
    ensures a == b
  {
    ParseIdsText(a);
    ParseIdsText(b);
  }

  /** Appending an id appends its text and one ','. */
  lemma {:induction false} IdsTextSnoc(ids: seq<Int32>, id: Int32)
    ensures IdsText(ids + [id]) == IdsText(ids) + IntToString(id) + ","
  {
    if ids == [] {
      assert [id][1..] == [];
    } else {
      var head, tail, last := IntToString(ids[0]) + ",", IdsText(ids[1..]), IntToString(id) + ",";
      assert (ids + [id])[0] == ids[0];
      assert (ids + [id])[1..] == ids[1..] + [id];
      IdsTextSnoc(ids[1..], id);
      assert IdsText(ids + [id]) == head + (tail + last);
      assert head + (tail + last) == (head + tail) + last;
    }
  }

  /** A non-empty list's text ends with ','. */
  lemma EndsWithComma(ids: seq<Int32>)
    requires ids != []
    ensures IdsText(ids)[|IdsText(ids)| - 1] == ','
  {
  }

  /** The text holds exactly one ',' per id. */
  lemma {:induction false} CommaCount(ids: seq<Int32>)
    ensures multiset(IdsText(ids))[','] == |ids|
  {
    if ids != [] {
      IntToStringHasNoComma(ids[0]);
      assert multiset(IntToString(ids[0]))[','] == 0;
      CommaCount(ids[1..]);
      assert IdsText(ids) == IntToString(ids[0]) + ([','] + IdsText(ids[1..]));
    }
  }

  /** Order and duplicates are kept: [3, 1, 7] gives "3,1,7," and [3, 1, 3] gives "3,1,3,". */
  lemma TextExamples()
    ensures IdsText([3, 1, 7]) == "3,1,7,"
    ensures IdsText([3, 1, 3]) == "3,1,3,"
    ensures IdsText([3, 1, 7]) != IdsText([1, 3, 7])
  {
    assert IntToString(3) == "3" && IntToString(1) == "1" && IntToString(7) == "7";
    assert [3, 1, 7][1..] == [1, 7] && [1, 7][1..] == [7] && [7][1..] == [];
    assert [3, 1, 3][1..] == [1, 3] && [1, 3][1..] == [3] && [3][1..] == [];
    assert IdsText([1, 3, 7])[0] == '1';
  }

  class Tour {
    var tourName: string
    var tourDescription: string
    var locationIDs: seq<Int32>

    constructor (tourName: string, tourDescription: string, locationIDs: seq<Int32>)
      ensures this.tourName == tourName && this.tourDescription == tourDescription
      ensures this.locationIDs == locationIDs
    {
      this.tourName := tourName;
      this.tourDescription := tourDescription;
      this.locationIDs := locationIDs;
    }

    method SetLocationIDs(locationIDs: seq<Int32>)
      modifies this
      ensures this.locationIDs == locationIDs
      ensures tourName == old(tourName) && tourDescription == old(tourDescription)
    {
      this.locationIDs := locationIDs;
    }

    method SetTourName(tourName: string)
      modifies this
      ensures this.tourName == tourName
      ensures tourDescription == old(tourDescription) && locationIDs == old(locationIDs)
    {
      this.tourName := tourName;
    }

    method SetTourDescription(tourDescription: string)
      modifies this
      ensures this.tourDescription == tourDescription
      ensures tourName == old(tourName) && locationIDs == old(locationIDs)
    {
      this.tourDescription := tourDescription;
    }

    /** Appends each id and a ',' to a builder, in list order. */
    method LocationIDsToString() returns (s: string)
      ensures s == IdsText(locationIDs)
    {
      s := "";
      var i := 0;
      while i < |locationIDs|
        invariant 0 <= i <= |locationIDs|
        invariant s == IdsText(locationIDs[..i])
      {
        assert locationIDs[..i + 1] == locationIDs[..i] + [locationIDs[i]];
        IdsTextSnoc(locationIDs[..i], locationIDs[i]);
        s := s + IntToString(locationIDs[i]);
        s := s + ",";
        i := i + 1;
      }
      assert locationIDs[..i] == locationIDs;
    }
  }
}
