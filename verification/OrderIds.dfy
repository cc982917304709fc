/** The ordering parameter that collects the Adobe order ids an MPT order created: a comma-separated
    list that is parsed, merged and printed again on every call. */
module OrderIds {
  import opened Sequences
  import opened Subscriptions

  /******* Splitting, trimming, joining *******/

  predicate IsSpace(c: char) {
    c == ' ' || c == '\t' || c == '\n' || c == '\r'
  }

  function Split(s: string): (parts: seq<string>)
    ensures parts != []
    ensures forall i :: 0 <= i < |parts| ==> ',' !in parts[i]
  {
    if s == [] then [[]]
    else
      var rest := Split(s[1..]);
      if s[0] == ',' then [[]] + rest else [[s[0]] + rest[0]] + rest[1..]
  }

  function TrimLeft(s: string): string {
    if s != [] && IsSpace(s[0]) then TrimLeft(s[1..]) else s
  }

  function TrimRight(s: string): string {
    if s != [] && IsSpace(s[|s|-1]) then TrimRight(s[..|s|-1]) else s
  }

  function Strip(s: string): string {
    TrimRight(TrimLeft(s))
  }

  function Join(parts: seq<string>): string {
    if parts == [] then []
    else if |parts| == 1 then parts[0]
    else parts[0] + [','] + Join(parts[1..])
  }

  lemma {:induction false} TrimLeftShape(s: string)
    ensures TrimLeft(s) == [] || !IsSpace(TrimLeft(s)[0])
    ensures forall c :: c in TrimLeft(s) ==> c in s
  {
    if s != [] && IsSpace(s[0]) {
      TrimLeftShape(s[1..]);
    }
  }

  lemma {:induction false} TrimRightShape(s: string)
    ensures TrimRight(s) == [] || !IsSpace(TrimRight(s)[|TrimRight(s)|-1])
    ensures TrimRight(s) <= s
  {
    if s != [] && IsSpace(s[|s|-1]) {
      TrimRightShape(s[..|s|-1]);
    }
  }

  lemma {:induction false} TrimLeftIs(s: string) returns (i: nat)
    ensures i <= |s| && TrimLeft(s) == s[i..] && AllSpaces(s[..i])
  {
    if s != [] && IsSpace(s[0]) {
      i := TrimLeftIs(s[1..]);
      assert s[..i+1] == [s[0]] + s[1..][..i] && s[i+1..] == s[1..][i..];
      return i + 1;
    } else {
      return 0;
    }
  }

  lemma {:induction false} TrimRightIs(s: string)
    ensures TrimRight(s) <= s && AllSpaces(s[|TrimRight(s)|..])
  {
    if s != [] && IsSpace(s[|s|-1]) {
      var front := s[..|s|-1];
      TrimRightIs(front);
      assert s[|TrimRight(s)|..] == front[|TrimRight(s)|..] + [s[|s|-1]];
    }
  }

  ghost predicate AllSpaces(s: string) {
    forall c :: c in s ==> c in {' ', '\t', '\n', '\r'}
  }

  /** The string is a part of the other, with nothing but white space before and after it. */
  ghost predicate IsTrimmed(t: string, s: string) {
    exists i, j :: 0 <= i <= j <= |s| && t == s[i..j] && AllSpaces(s[..i]) && AllSpaces(s[j..])
  }

  lemma TrimmedFrom(s: string, i: nat, t: string)
    requires i <= |s| && AllSpaces(s[..i]) && t <= s[i..] && AllSpaces(s[i..][|t|..])
    ensures IsTrimmed(t, s)
  {
    var j := i + |t|;
    assert t == s[i..j] && s[i..][|t|..] == s[j..];
  }

  /** What is left of a string is trimmed, and has no white space at either end. */
  lemma StripIs(s: string)
    ensures IsTrimmed(Strip(s), s)
    ensures Strip(s) != [] ==>
              Strip(s)[0] !in {' ', '\t', '\n', '\r'} && Strip(s)[|Strip(s)|-1] !in {' ', '\t', '\n', '\r'}
  {
    hide TrimLeft, TrimRight, AllSpaces, IsTrimmed;
    var i := TrimLeftIs(s);
    TrimRightIs(TrimLeft(s));
    TrimmedFrom(s, i, Strip(s));
    StripEnds(s);
  }

  lemma StripEnds(s: string)
    ensures Strip(s) != [] ==> !IsSpace(Strip(s)[0]) && !IsSpace(Strip(s)[|Strip(s)|-1])
  {
    hide TrimLeft, TrimRight, IsSpace;
    TrimLeftShape(s);
    TrimRightShape(TrimLeft(s));
    assert Strip(s) != [] ==> Strip(s)[0] == TrimLeft(s)[0];
  }

  lemma StripTwice(s: string)
    ensures Strip(Strip(s)) == Strip(s)
    ensures forall c :: c in Strip(s) ==> c in s
  {
    TrimLeftShape(s);
    TrimRightShape(TrimLeft(s));
    assert Strip(s) != [] ==> Strip(s)[0] == TrimLeft(s)[0];
  }

  lemma {:induction false} SplitWhole(part: string)
    requires ',' !in part
    ensures Split(part) == [part]
  {
    if part == [] {
      assert Split(part) == [[]];
    } else {
      SplitWhole(part[1..]);
      assert [part[0]] + part[1..] == part;
    }
  }

  lemma {:induction false} SplitFirst(part: string, s: string)
    requires ',' !in part
    ensures Split(part + [','] + s) == [part] + Split(s)
  {
    var all := part + [','] + s;
    if part == [] {
      assert all[1..] == s;
    } else {
      SplitFirst(part[1..], s);
      assert all[1..] == part[1..] + [','] + s;
      assert [all[0]] + part[1..] == part;
      assert ([part[1..]] + Split(s))[1..] == Split(s);
    }
  }

  /** Splitting undoes joining for parts without a comma. */
  lemma {:induction false} SplitJoin(parts: seq<string>)
    requires parts != [] && forall i :: 0 <= i < |parts| ==> ',' !in parts[i]
    ensures Split(Join(parts)) == parts
  {
    if |parts| == 1 {
      SplitWhole(parts[0]);
    } else {
      SplitJoin(parts[1..]);
      SplitFirst(parts[0], Join(parts[1..]));
    }
  }

  /******* Parsing and printing *******/

  function Cleaned(part: string): seq<string> {
    if Strip(part) == [] then [] else [Strip(part)]
  }

  function Parse(value: string): seq<string> {
    FlatMap(Split(value), Cleaned)
  }

  predicate IsClean(id: string) {
    id != [] && Strip(id) == id && ',' !in id
  }

  lemma ParsedIsClean(value: string, id: string)
    requires id in Parse(value)
    ensures IsClean(id) && ',' !in id && id != []
    ensures id[0] !in {' ', '\t', '\n', '\r'} && id[|id|-1] !in {' ', '\t', '\n', '\r'}
  {
    StripIs(id);
    FlatMapHas(Split(value), Cleaned, id);
    var part :| part in Split(value) && id in Cleaned(part);
    StripTwice(part);
  }

  /** Round trip: printing clean ids and parsing them back gives the same ids in the same order. */
  lemma ParsePrinted(ids: seq<string>)
    requires forall i :: 0 <= i < |ids| ==> IsClean(ids[i])
    ensures Parse(Join(ids)) == ids
  {
    if ids == [] {
      assert Split([]) == [[]];
      FlatMapOne([], Cleaned);
    } else {
      SplitJoin(ids);
      FlatMapIdentity(ids, Cleaned);
    }
  }

  /** One stripped, non-empty id survives the round trip if and only if it has no comma. */
  lemma SurvivesIff(id: string)
    requires id != [] && Strip(id) == id
    ensures Parse(Join([id])) == [id] <==> ',' !in id
  {
    if ',' !in id {
      ParsePrinted([id]);
    } else if Parse(id) == [id] {
      ParsedIsClean(id, id);
      assert false;
    }
  }

  /******* Merging *******/

  /** First occurrences, in order: list(dict.fromkeys(ids)). */
  function Firsts(ids: seq<string>): seq<string> {
    if ids == [] then []
    else
      var front := Firsts(ids[..|ids|-1]);
      if ids[|ids|-1] in front then front else front + [ids[|ids|-1]]
  }

  ghost predicate NoDuplicates(ids: seq<string>) {
    forall i, j :: 0 <= i < j < |ids| ==> ids[i] != ids[j]
  }

  lemma FirstsSnoc(ids: seq<string>, id: string)
    ensures Firsts(ids + [id]) == if id in Firsts(ids) then Firsts(ids) else Firsts(ids) + [id]
  {
  }

  lemma {:induction false} FirstsKeep(ids: seq<string>)
    ensures NoDuplicates(Firsts(ids))
    ensures forall id :: id in Firsts(ids) <==> id in ids
    ensures NoDuplicates(ids) ==> Firsts(ids) == ids
  {
    if ids != [] {
      var front, last := ids[..|ids|-1], ids[|ids|-1];
      FirstsKeep(front);
      assert ids == front + [last];
      assert NoDuplicates(ids) ==> last !in front;
    }
  }

  /** Merging in two steps or in one is the same, and what was there first stays a prefix. */
  lemma {:induction false} FirstsMerge(a: seq<string>, b: seq<string>)
    ensures Firsts(Firsts(a) + b) == Firsts(a + b)
    ensures Firsts(a) <= Firsts(a + b)
  {
    hide Firsts;
    if b == [] {
      FirstsKeep(a);
      FirstsKeep(Firsts(a));
      assert Firsts(a) + b == Firsts(a) && a + b == a;
    } else {
      var front, last := b[..|b|-1], b[|b|-1];
      FirstsMerge(a, front);
      FirstsSnoc(Firsts(a) + front, last);
      FirstsSnoc(a + front, last);
      assert Firsts(a) + b == Firsts(a) + front + [last] && a + b == a + front + [last];
    }
  }

  /** Ids that are all there already add nothing. */
  lemma {:induction false} FirstsRepeat(a: seq<string>, b: seq<string>)
    requires forall id :: id in b ==> id in a
    ensures Firsts(a + b) == Firsts(a)
  {
    hide Firsts;
    if b == [] {
      assert a + b == a;
    } else {
      var front, last := b[..|b|-1], b[|b|-1];
      assert b == front + [last];
      assert last in a && forall id :: id in front ==> id in a by {
        assert last in b && forall id :: id in front ==> id in b;
      }
      FirstsRepeat(a, front);
      FirstsSnoc(a + front, last);
      FirstsKeep(a);
      assert a + b == a + front + [last];
    }
  }

  /** dict.fromkeys, key by key. */
  method Merge(ids: seq<string>) returns (merged: seq<string>)
    ensures merged == Firsts(ids)
  {
    merged := [];
    for i := 0 to |ids|
      invariant merged == Firsts(ids[..i])
    {
      assert ids[..i+1] == ids[..i] + [ids[i]];
      FirstsSnoc(ids[..i], ids[i]);
      if ids[i] !in merged {
        merged := merged + [ids[i]];
      }
    }
    assert ids[..|ids|] == ids;
  }

  function CleanedId(id: Option<string>): seq<string> {
    if id.None? then [] else Cleaned(id.value)
  }

  /** The ids of a call that are neither missing nor blank. */
  function Sanitized(ids: seq<Option<string>>): seq<string> {
    FlatMap(ids, CleanedId)
  }

  ghost predicate CommaFree(ids: seq<Option<string>>) {
    forall i :: 0 <= i < |ids| && ids[i].Some? ==> ',' !in ids[i].value
  }

  lemma SanitizedIsClean(ids: seq<Option<string>>, id: string)
    requires CommaFree(ids) && id in Sanitized(ids)
    ensures IsClean(id)
  {
    FlatMapHas(ids, CleanedId, id);
    var given :| given in ids && id in CleanedId(given);
    StripTwice(given.value);
  }

  lemma SanitizedAre(ids: seq<Option<string>>)
    ensures forall i :: 0 <= i < |ids| && ids[i].Some? && Strip(ids[i].value) != [] ==>
                          Strip(ids[i].value) in Sanitized(ids)
    ensures forall id :: id in Sanitized(ids) ==>
                           exists i :: 0 <= i < |ids| && ids[i].Some? && Strip(ids[i].value) == id
  {
    hide Strip, FlatMap;
    forall i | 0 <= i < |ids| && ids[i].Some? && Strip(ids[i].value) != []
      ensures Strip(ids[i].value) in Sanitized(ids)
    {
      FlatMapHas(ids, CleanedId, Strip(ids[i].value));
      assert Strip(ids[i].value) in CleanedId(ids[i]);
    }
    forall id | id in Sanitized(ids)
      ensures exists i :: 0 <= i < |ids| && ids[i].Some? && Strip(ids[i].value) == id
    {
      FlatMapHas(ids, CleanedId, id);
      var given :| given in ids && id in CleanedId(given);
      var i :| 0 <= i < |ids| && ids[i] == given;
    }
  }

  /** The ids of the call are there, without the white space around them, and nothing else is new. */
  ghost predicate Adds(before: seq<string>, after: seq<string>, ids: seq<Option<string>>) {
    && (forall i :: 0 <= i < |ids| && ids[i].Some? && Strip(ids[i].value) != [] ==> Strip(ids[i].value) in after)
    && (forall id :: id in after && id !in before ==>
                       exists i :: 0 <= i < |ids| && ids[i].Some? && Strip(ids[i].value) == id)
  }

  lemma AddsIds(before: seq<string>, ids: seq<Option<string>>)
    ensures Adds(Firsts(before), Firsts(before + Sanitized(ids)), ids)
  {
    hide Firsts, Sanitized, Strip;
    SanitizedAre(ids);
    FirstsKeep(before);
    FirstsKeep(before + Sanitized(ids));
  }

  class OrderingParameter {
    // None: the parameter is missing or has no value.
    var value: Option<string>
    ghost const start: seq<string>
    ghost var recorded: seq<string>

    constructor (value: Option<string>)
      requires NoDuplicates(ParsedOr(value))
      ensures Valid() && this.value == value && recorded == []
    {
      this.value := value;
      start, recorded := ParsedOr(value), [];
      FirstsKeep(ParsedOr(value));
      assert ParsedOr(value) + [] == ParsedOr(value);
    }

    /** Main result: the parameter reads as the first occurrences of everything ever recorded, in call
        order, after what it held at the start. */
    ghost predicate Valid()
      reads this
    {
      ParsedOr(value) == Firsts(start + recorded)
    }

    /** set_adobe_order_ids_created_parameter */
    method Record(ids: seq<Option<string>>)
      requires Valid() && CommaFree(ids)
      modifies `value, `recorded
      ensures Valid() && recorded == old(recorded) + Sanitized(ids)
      ensures ParsedOr(old(value)) <= ParsedOr(value)
      ensures (forall id :: id in Sanitized(ids) ==> id in ParsedOr(old(value))) ==> value == old(value)
      ensures Adds(ParsedOr(old(value)), ParsedOr(value), ids)
    {
      hide Adds;
      AddsIds(start + recorded, ids);
      var sanitized := Sanitized(ids);
      ghost var before := start + recorded;
      recorded := recorded + sanitized;
      assert start + recorded == before + sanitized;
      FirstsMerge(before, sanitized);
      if sanitized == [] {
        assert before + sanitized == before;
        return;
      }
      var existing := ParsedOr(value);
      FirstsKeep(before);
      if forall id :: id in sanitized ==> id in existing {
        FirstsRepeat(before, sanitized);
      }
      var merged := Merge(existing + sanitized);
      if merged == existing {
        return;
      }
      forall i | 0 <= i < |merged|
        ensures IsClean(merged[i])
      {
        FirstsKeep(existing + sanitized);
        assert merged[i] in existing + sanitized;
        if merged[i] in existing {
          ParsedIsClean(value.value, merged[i]);
        } else {
          SanitizedIsClean(ids, merged[i]);
        }
      }
      ParsePrinted(merged);
      value := Some(Join(merged));
    }
  }

  function ParsedOr(value: Option<string>): seq<string> {
    if value.None? then [] else Parse(value.value)
  }
}
