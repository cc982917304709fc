/** The PREVIEW order of a change order: how many licenses each upsize line still has to buy, and the
    loop that drops flexible discount codes Adobe rejects until a preview comes back clean. */
module PreviewOrder {
  import opened Sequences
  import opened Subscriptions

  /******* What an upsize buys *******/

  datatype UpsizeLine = UpsizeLine(sku: Sku, oldQuantity: nat, quantity: nat)

  // What the customer holds of a SKU: renewal quantity and current quantity.
  datatype Held = Held(renewal: nat, current: nat)

  datatype Item = Item(sku: Sku, quantity: nat)

  /** The part of the increase that is not already covered by unrenewed licenses; zero or less means
      there is nothing to buy. */
  function ToBuy(line: UpsizeLine, held: Held): int {
    line.quantity - line.oldQuantity - if held.renewal < held.current then held.current - held.renewal else 0
  }

  function ItemsFor(holdings: map<Sku, Held>): UpsizeLine -> seq<Item> {
    (line: UpsizeLine) =>
      if line.sku in holdings && ToBuy(line, holdings[line.sku]) > 0
      then [Item(line.sku, ToBuy(line, holdings[line.sku]))] else []
  }

  /** _process_upsize_lines. None stands for the error raised when Adobe has no subscription for a
      line. */
  method ProcessUpsizeLines(lines: seq<UpsizeLine>, holdings: map<Sku, Held>) returns (items: Option<seq<Item>>)
    ensures items.None? <==> exists i :: 0 <= i < |lines| && lines[i].sku !in holdings
    ensures items.Some? ==> items.value == FlatMap(lines, ItemsFor(holdings))
  {
    var built: seq<Item> := [];
    for i := 0 to |lines|
      invariant forall j :: 0 <= j < i ==> lines[j].sku in holdings
      invariant built == FlatMap(lines[..i], ItemsFor(holdings))
    {
      var line := lines[i];
      if line.sku !in holdings {
        return None;
      }
      FlatMapNext(lines, i, ItemsFor(holdings));
      var quantity := ToBuy(line, holdings[line.sku]);
      if quantity > 0 {
        built := built + [Item(line.sku, quantity)];
      }
    }
    assert lines[..|lines|] == lines;
    return Some(built);
  }

  function Bought(items: seq<Item>, sku: Sku): nat {
    if items == [] then 0
    else Bought(items[..|items|-1], sku) + if items[|items|-1].sku == sku then items[|items|-1].quantity else 0
  }

  lemma {:induction false} BoughtConcat(a: seq<Item>, b: seq<Item>, sku: Sku)
    ensures Bought(a + b, sku) == Bought(a, sku) + Bought(b, sku)
  {
    if b == [] {
      assert a + b == a;
    } else {
      BoughtConcat(a, b[..|b|-1], sku);
      assert (a + b)[..|a + b|-1] == a + b[..|b|-1];
    }
  }

  lemma BoughtFor(line: UpsizeLine, holdings: map<Sku, Held>, sku: Sku)
    requires line.sku in holdings
    ensures Bought(ItemsFor(holdings)(line), sku) ==
            if line.sku == sku && ToBuy(line, holdings[sku]) > 0 then ToBuy(line, holdings[sku]) else 0
  {
  }

  ghost predicate DistinctLines(lines: seq<UpsizeLine>) {
    forall i, j :: 0 <= i < j < |lines| ==> lines[i].sku != lines[j].sku
  }

  lemma {:induction false} BoughtOfLines(lines: seq<UpsizeLine>, holdings: map<Sku, Held>, sku: Sku)
    requires DistinctLines(lines) && forall i :: 0 <= i < |lines| ==> lines[i].sku in holdings
    ensures forall k :: 0 <= k < |lines| && lines[k].sku == sku ==>
                          Bought(FlatMap(lines, ItemsFor(holdings)), sku) ==
                          if ToBuy(lines[k], holdings[sku]) > 0 then ToBuy(lines[k], holdings[sku]) else 0
    ensures (forall k :: 0 <= k < |lines| ==> lines[k].sku != sku) ==>
              Bought(FlatMap(lines, ItemsFor(holdings)), sku) == 0
  {
    if lines != [] {
      var front, last := lines[..|lines|-1], lines[|lines|-1];
      BoughtOfLines(front, holdings, sku);
      BoughtConcat(FlatMap(front, ItemsFor(holdings)), ItemsFor(holdings)(last), sku);
      BoughtFor(last, holdings, sku);
      if last.sku == sku {
        assert forall k :: 0 <= k < |front| ==> front[k].sku != sku;
      }
    }
  }

  /** For every set of upsize lines whose old quantity is the renewal quantity: after the NEW order the
      customer holds the larger of what was held and what was asked, for a line, exactly when the
      renewal quantity was not above the current one. The renewal quantity written afterwards, the
      requested one, is then within the current quantity. */
  lemma {:induction false} UpsizeIsCoveredIff(lines: seq<UpsizeLine>, holdings: map<Sku, Held>, k: nat)
    requires DistinctLines(lines) && forall i :: 0 <= i < |lines| ==> lines[i].sku in holdings
    requires k < |lines| && lines[k].oldQuantity == holdings[lines[k].sku].renewal
             && lines[k].quantity >= lines[k].oldQuantity
    ensures var held := holdings[lines[k].sku];
            var current := held.current + Bought(FlatMap(lines, ItemsFor(holdings)), lines[k].sku);
            && (current == (if held.current > lines[k].quantity then held.current else lines[k].quantity)
                <==> held.renewal <= held.current)
            && (lines[k].quantity <= current <==> held.renewal <= held.current)
  {
    BoughtOfLines(lines, holdings, lines[k].sku);
  }

  /******* The preview loop *******/

  // `codes` is None when the line was built without any discount code.
  datatype PreviewLine = PreviewLine(number: nat, offer: Offer, quantity: nat, codes: Option<set<Code>>)

  // One discount of a preview response, and whether Adobe applied it.
  datatype Discount = Discount(code: Code, success: bool)

  // A response, an error that says a line does not qualify for its discount, or any other error.
  datatype Reply = Response(discounts: seq<Discount>) | NotQualified(number: nat) | Failure

  datatype Outcome = Returned(response: Option<Reply>) | Exhausted | Raised

  function Failed(discounts: seq<Discount>): set<Code> {
    set d | d in discounts && !d.success :: d.code
  }

  function FindLine(lines: seq<PreviewLine>, number: nat): Option<PreviewLine> {
    if lines == [] then None
    else if lines[0].number == number then Some(lines[0])
    else FindLine(lines[1..], number)
  }

  /** The codes a reply blames; None when handling it raises. */
  function Blamed(lines: seq<PreviewLine>, reply: Reply): Option<set<Code>> {
    match reply
    case Response(discounts) => Some(Failed(discounts))
    case NotQualified(number) =>
      var line := FindLine(lines, number);
      if line.Some? then line.value.codes else None
    case Failure => None
  }

  function Without(line: PreviewLine, failed: set<Code>): PreviewLine {
    if line.codes.Some? then line.(codes := Some(line.codes.value - failed)) else line
  }

  function Removed(lines: seq<PreviewLine>, failed: set<Code>): (after: seq<PreviewLine>)
    ensures |after| == |lines| && forall i :: 0 <= i < |lines| ==> after[i] == Without(lines[i], failed)
  {
    if lines == [] then [] else Removed(lines[..|lines|-1], failed) + [Without(lines[|lines|-1], failed)]
  }

  /** The loop as a function of what Adobe replies, attempt by attempt. */
  function Run(lines: seq<PreviewLine>, replies: seq<Reply>, last: Option<Reply>): Outcome
    decreases |replies|
  {
    if replies == [] then Exhausted
    else
      var response := if replies[0].Response? then Some(replies[0]) else last;
      var blamed := Blamed(lines, replies[0]);
      if blamed.None? then Raised
      else if blamed.value == {} then Returned(response)
      else Run(Removed(lines, blamed.value), replies[1..], response)
  }

  function CodesOf(line: PreviewLine): set<Code> {
    if line.codes.Some? then line.codes.value else {}
  }

  function AllCodes(lines: seq<PreviewLine>): set<Code> {
    if lines == [] then {} else AllCodes(lines[..|lines|-1]) + CodesOf(lines[|lines|-1])
  }

  lemma {:induction false} AllCodesRemoved(lines: seq<PreviewLine>, failed: set<Code>)
    ensures AllCodes(Removed(lines, failed)) == AllCodes(lines) - failed
  {
    if lines != [] {
      AllCodesRemoved(lines[..|lines|-1], failed);
      assert Removed(lines, failed)[..|lines|-1] == Removed(lines[..|lines|-1], failed);
    }
  }

  /** Adobe blames only codes that are still in the payload, and an error about a line's discount is
      about a line that has one. */
  ghost predicate WellBehaved(lines: seq<PreviewLine>, replies: seq<Reply>)
    decreases |replies|
  {
    replies != [] ==>
      var blamed := Blamed(lines, replies[0]);
      blamed.Some? ==>
        && blamed.value <= AllCodes(lines)
        && (replies[0].NotQualified? ==> blamed.value != {})
        && (blamed.value != {} ==> WellBehaved(Removed(lines, blamed.value), replies[1..]))
  }

  /** A preview that comes back from a well-behaved Adobe has no failed code. */
  lemma {:induction false} ReturnedIsClean(lines: seq<PreviewLine>, replies: seq<Reply>, last: Option<Reply>)
    requires WellBehaved(lines, replies) && Run(lines, replies, last).Returned?
    ensures Run(lines, replies, last).response.Some?
    ensures Run(lines, replies, last).response.value.Response?
            && Failed(Run(lines, replies, last).response.value.discounts) == {}
    decreases |replies|
  {
    var blamed := Blamed(lines, replies[0]);
    if blamed.value != {} {
      ReturnedIsClean(Removed(lines, blamed.value), replies[1..],
                      if replies[0].Response? then Some(replies[0]) else last);
    }
  }

  lemma FewerCodes(codes: set<Code>, failed: set<Code>)
    requires failed != {} && failed <= codes
    ensures |codes - failed| < |codes|
  {
  }

  lemma {:induction false} ExhaustionNeedsCodes(lines: seq<PreviewLine>, replies: seq<Reply>, last: Option<Reply>)
    requires WellBehaved(lines, replies) && Run(lines, replies, last).Exhausted?
    ensures |AllCodes(lines)| >= |replies|
    decreases |replies|
  {
    if replies != [] {
      var blamed := Blamed(lines, replies[0]).value;
      ExhaustionNeedsCodes(Removed(lines, blamed), replies[1..],
                           if replies[0].Response? then Some(replies[0]) else last);
      AllCodesRemoved(lines, blamed);
      FewerCodes(AllCodes(lines), blamed);
    }
  }

  lemma {:induction false} CodesAllowExhaustion(lines: seq<PreviewLine>, n: nat, last: Option<Reply>)
    returns (replies: seq<Reply>)
    requires |AllCodes(lines)| >= n
    ensures |replies| == n && WellBehaved(lines, replies) && Run(lines, replies, last).Exhausted?
    decreases n
  {
    if n == 0 {
      return [];
    }
    var code :| code in AllCodes(lines);
    var reply := Response([Discount(code, false)]);
    assert Failed(reply.discounts) == {code} by {
      assert Discount(code, false) in reply.discounts;
    }
    AllCodesRemoved(lines, {code});
    var rest := CodesAllowExhaustion(Removed(lines, {code}), n - 1, Some(reply));
    replies := [reply] + rest;
    assert replies[1..] == rest;
  }

  const ATTEMPTS: nat := 5

  /** With a well-behaved Adobe the loop can run out of attempts if and only if the payload has at
      least five distinct codes. */
  lemma ExhaustionIff(lines: seq<PreviewLine>)
    ensures (exists replies: seq<Reply> ::
               |replies| == ATTEMPTS && WellBehaved(lines, replies)
               && Run(lines, replies, None).Exhausted?)
            <==> |AllCodes(lines)| >= ATTEMPTS
  {
    if replies: seq<Reply> :|
       |replies| == ATTEMPTS && WellBehaved(lines, replies)
       && Run(lines, replies, None).Exhausted? {
      ExhaustionNeedsCodes(lines, replies, None);
    }
    if |AllCodes(lines)| >= ATTEMPTS {
      var replies := CodesAllowExhaustion(lines, ATTEMPTS, None);
    }
  }

  /******* When a returned preview still carries failed codes *******/

  predicate Clean(response: Option<Reply>) {
    response.Some? && response.value.Response? && Failed(response.value.discounts) == {}
  }

  /** The reply the loop stops at. */
  function Ending(lines: seq<PreviewLine>, replies: seq<Reply>): Option<Reply>
    decreases |replies|
  {
    if replies == [] then None
    else
      var blamed := Blamed(lines, replies[0]);
      if blamed.None? || blamed.value == {} then Some(replies[0])
      else Ending(Removed(lines, blamed.value), replies[1..])
  }

  /** The codes removed from the payload before that. */
  function Dropped(lines: seq<PreviewLine>, replies: seq<Reply>): set<Code>
    decreases |replies|
  {
    if replies == [] then {}
    else
      var blamed := Blamed(lines, replies[0]);
      if blamed.None? || blamed.value == {} then {}
      else blamed.value + Dropped(Removed(lines, blamed.value), replies[1..])
  }

  lemma {:induction false} FindRemoved(lines: seq<PreviewLine>, failed: set<Code>, number: nat)
    ensures var found := FindLine(lines, number);
            FindLine(Removed(lines, failed), number) ==
            if found.Some? then Some(Without(found.value, failed)) else None
    decreases |lines|
  {
    if lines != [] {
      assert Removed(lines, failed)[1..] == Removed(lines[1..], failed);
      FindRemoved(lines[1..], failed, number);
    }
  }

  /** When the loop returns, the preview is clean if and only if the reply it stopped at is a response. The
      only other reply it stops at is an error about a line whose codes were all dropped before; what is
      returned then is the response of an earlier attempt, failed codes and all, or none. */
  lemma {:induction false} ReturnedIsCleanIff(lines: seq<PreviewLine>, replies: seq<Reply>, last: Option<Reply>)
    requires Run(lines, replies, last).Returned? && !Clean(last)
    ensures var response, ending := Run(lines, replies, last).response, Ending(lines, replies);
            && ending.Some?
            && (Clean(response) <==> ending.value.Response?)
            && (ending.value.Response? ==> response == ending)
            && (!ending.value.Response? ==>
                  && ending.value.NotQualified?
                  && var line := FindLine(lines, ending.value.number);
                     line.Some? && line.value.codes.Some? && line.value.codes.value <= Dropped(lines, replies))
    decreases |replies|
  {
    var blamed := Blamed(lines, replies[0]).value;
    if blamed != {} {
      ReturnedIsCleanIff(Removed(lines, blamed), replies[1..], if replies[0].Response? then Some(replies[0]) else last);
      var ending := Ending(lines, replies).value;
      if ending.NotQualified? {
        FindRemoved(lines, blamed, ending.number);
      }
    }
  }

  /** So a payload is safe from that, whatever Adobe replies, if and only if no line that an error can name
      was built with codes. */
  lemma UncleanIff(lines: seq<PreviewLine>)
    ensures (exists replies: seq<Reply> ::
               |replies| == ATTEMPTS && Run(lines, replies, None).Returned?
               && !Clean(Run(lines, replies, None).response))
            <==> exists number :: HasCodes(FindLine(lines, number))
  {
    if replies: seq<Reply> :|
       |replies| == ATTEMPTS && Run(lines, replies, None).Returned? && !Clean(Run(lines, replies, None).response) {
      ReturnedIsCleanIff(lines, replies, None);
      assert HasCodes(FindLine(lines, Ending(lines, replies).value.number));
    }
    if number :| HasCodes(FindLine(lines, number)) {
      NamedTwice(lines, number);
    }
  }

  predicate HasCodes(line: Option<PreviewLine>) {
    line.Some? && line.value.codes.Some?
  }

  /** Named once the line loses its codes, named again it ends the loop with nothing to return. */
  lemma NamedTwice(lines: seq<PreviewLine>, number: nat)
    requires HasCodes(FindLine(lines, number))
    ensures Run(lines, seq(ATTEMPTS, _ => NotQualified(number)), None) == Returned(None)
  {
    var replies := seq(ATTEMPTS, _ => NotQualified(number));
    var codes := FindLine(lines, number).value.codes.value;
    FindRemoved(lines, codes, number);
    assert codes - codes == {};
    RunNext(lines, replies, 0, None);
    assert replies[0..] == replies;
    if codes != {} {
      RunNext(Removed(lines, codes), replies, 1, None);
    }
  }

  /** A concrete one: the first attempt reports a failed code, the second blames the line it was removed
      from, and the preview with the failed code is returned. */
  lemma StaleResponse(line: PreviewLine, code: Code)
    requires line.codes == Some({code})
    ensures var failing := Response([Discount(code, false)]);
            && Run([line], [failing, NotQualified(line.number)], None) == Returned(Some(failing))
            && Failed(failing.discounts) == {code}
            && Run([line.(codes := Some({}))], [NotQualified(line.number)], None) == Returned(None)
  {
  }

  /** Same lines, offers and quantities; no code was added. */
  ghost predicate OnlyCodesShrink(before: seq<PreviewLine>, after: seq<PreviewLine>) {
    |after| == |before|
    && forall i :: 0 <= i < |before| ==>
                     && after[i].(codes := None) == before[i].(codes := None)
                     && after[i].codes.Some? == before[i].codes.Some?
                     && CodesOf(after[i]) <= CodesOf(before[i])
  }

  /** An error about a discount names the first line with its number. */
  ghost predicate IsNamed(lines: seq<PreviewLine>, i: int, number: nat) {
    && 0 <= i < |lines| && lines[i].number == number
    && forall j :: 0 <= j < i ==> lines[j].number != number
  }

  lemma {:induction false} FindLineIsFirst(lines: seq<PreviewLine>, number: nat)
    ensures FindLine(lines, number).None? ==> forall i :: 0 <= i < |lines| ==> lines[i].number != number
    ensures FindLine(lines, number).Some? ==>
              exists i :: IsNamed(lines, i, number) && lines[i] == FindLine(lines, number).value
  {
    if lines != [] && lines[0].number != number {
      FindLineIsFirst(lines[1..], number);
      assert forall i :: 1 <= i < |lines| ==> lines[i] == lines[1..][i-1];
      if FindLine(lines, number).Some? {
        var i :| IsNamed(lines[1..], i, number) && lines[1..][i] == FindLine(lines, number).value;
        assert IsNamed(lines, i + 1, number);
      }
    } else if lines != [] {
      assert IsNamed(lines, 0, number);
    }
  }

  /** The reply blames the code: it failed in a response, or the line an error names was built with it. */
  ghost predicate Blames(reply: Reply, code: Code, lines: seq<PreviewLine>) {
    match reply
    case Response(discounts) => Discount(code, false) in discounts
    case NotQualified(number) => exists i :: IsNamed(lines, i, number) && code in CodesOf(lines[i])
    case Failure => false
  }

  lemma BlamedByReply(before: seq<PreviewLine>, lines: seq<PreviewLine>, reply: Reply, code: Code)
    requires OnlyCodesShrink(before, lines)
    requires Blamed(lines, reply).Some? && code in Blamed(lines, reply).value
    ensures Blames(reply, code, before)
  {
    match reply {
      case Response(discounts) =>
      case NotQualified(number) =>
        FindLineIsFirst(lines, number);
        var i :| IsNamed(lines, i, number) && lines[i] == FindLine(lines, number).value;
        assert forall j :: 0 <= j < |before| ==> before[j].number == before[j].(codes := None).number;
        assert IsNamed(before, i, number) && code in CodesOf(before[i]);
      case Failure =>
    }
  }

  /** A line has lost only codes some reply blames. */
  ghost predicate OnlyBlamedLost(before: seq<PreviewLine>, after: seq<PreviewLine>, replies: seq<Reply>)
    requires |before| == |after|
  {
    forall i, code :: 0 <= i < |before| && code in CodesOf(before[i]) && code !in CodesOf(after[i]) ==>
                        exists k :: 0 <= k < |replies| && Blames(replies[k], code, before)
  }

  /** None of the codes that failed in the response is left in a line. */
  ghost predicate FailedAreGone(response: Option<Reply>, lines: seq<PreviewLine>) {
    response.Some? && response.value.Response? ==>
      forall d, i :: d in response.value.discounts && !d.success && 0 <= i < |lines| ==> d.code !in CodesOf(lines[i])
  }

  lemma LosesBlamed(
    before: seq<PreviewLine>, lines: seq<PreviewLine>, replies: seq<Reply>, k: nat, response: Option<Reply>)
    requires OnlyCodesShrink(before, lines) && OnlyBlamedLost(before, lines, replies)
    requires k < |replies| && Blamed(lines, replies[k]).Some? && (replies[k].Response? ==> response == Some(replies[k]))
    requires replies[k].Response? || FailedAreGone(response, lines)
    ensures var after := Removed(lines, Blamed(lines, replies[k]).value);
            OnlyBlamedLost(before, after, replies) && FailedAreGone(response, after)
  {
    var blamed := Blamed(lines, replies[k]).value;
    var after := Removed(lines, blamed);
    forall i, code | 0 <= i < |before| && code in CodesOf(before[i]) && code !in CodesOf(after[i])
      ensures exists j :: 0 <= j < |replies| && Blames(replies[j], code, before)
    {
      if code in CodesOf(lines[i]) {
        BlamedByReply(before, lines, replies[k], code);
      }
    }
  }

  class Payload {
    var lines: seq<PreviewLine>

    constructor (lines: seq<PreviewLine>)
      ensures this.lines == lines
    {
      this.lines := lines;
    }

    /** _remove_failed_discount_codes */
    method RemoveFailedCodes(failed: set<Code>)
      modifies this
      ensures lines == Removed(old(lines), failed)
    {
      for i := 0 to |lines|
        invariant |lines| == |old(lines)|
        invariant forall j :: 0 <= j < i ==> lines[j] == Without(old(lines)[j], failed)
        invariant forall j :: i <= j < |lines| ==> lines[j] == old(lines)[j]
      {
        if lines[i].codes.Some? && lines[i].codes.value != {} {
          lines := lines[i := lines[i].(codes := Some(lines[i].codes.value - failed))];
        } else {
          assert CodesOf(lines[i]) - failed == CodesOf(lines[i]);
        }
      }
    }

    /** get_preview_order; `replies` is what Adobe answers to each attempt. */
    method GetPreviewOrder(replies: seq<Reply>) returns (outcome: Outcome)
      requires |replies| == ATTEMPTS
      modifies this
      ensures outcome == Run(old(lines), replies, None)
      ensures OnlyCodesShrink(old(lines), lines) && OnlyBlamedLost(old(lines), lines, replies)
      ensures outcome.Returned? && outcome.response.Some? ==>
                outcome.response.value in replies && outcome.response.value.Response?
      ensures outcome.Returned? ==> FailedAreGone(outcome.response, lines)
    {
      hide Run, Removed, Blamed, OnlyBlamedLost, FailedAreGone;
      NothingLost(lines, replies);
      var response: Option<Reply> := None;
      for attempt := 0 to ATTEMPTS
        invariant OnlyCodesShrink(old(lines), lines)
        invariant OnlyBlamedLost(old(lines), lines, replies) && FailedAreGone(response, lines)
        invariant response.Some? ==> response.value in replies && response.value.Response?
        invariant Run(lines, replies[attempt..], response) == Run(old(lines), replies, None)
      {
        var reply := replies[attempt];
        RunNext(lines, replies, attempt, response);
        if reply.Response? {
          response := Some(reply);
        }
        var blamed := Blamed(lines, reply);
        if blamed.None? {
          return Raised;
        }
        LosesBlamed(old(lines), lines, replies, attempt, response);
        if blamed.value == {} {
          NothingRemoved(lines);
          return Returned(response);
        }
        ShrinksMore(old(lines), lines, blamed.value);
        RemoveFailedCodes(blamed.value);
      }
      assert replies[ATTEMPTS..] == [];
      RunOut(lines, response);
      return Exhausted;
    }
  }

  lemma NothingLost(lines: seq<PreviewLine>, replies: seq<Reply>)
    ensures OnlyBlamedLost(lines, lines, replies) && FailedAreGone(None, lines)
  {
  }

  lemma NothingRemoved(lines: seq<PreviewLine>)
    ensures Removed(lines, {}) == lines
  {
    forall i | 0 <= i < |lines|
      ensures Without(lines[i], {}) == lines[i]
    {
      assert CodesOf(lines[i]) - {} == CodesOf(lines[i]);
    }
  }

  lemma RunNext(lines: seq<PreviewLine>, replies: seq<Reply>, k: nat, last: Option<Reply>)
    requires k < |replies|
    ensures var response := if replies[k].Response? then Some(replies[k]) else last;
            var blamed := Blamed(lines, replies[k]);
            Run(lines, replies[k..], last) ==
            if blamed.None? then Raised
            else if blamed.value == {} then Returned(response)
            else Run(Removed(lines, blamed.value), replies[k+1..], response)
  {
  }

  lemma RunOut(lines: seq<PreviewLine>, last: Option<Reply>)
    ensures Run(lines, [], last) == Exhausted
  {
  }

  lemma ShrinksMore(before: seq<PreviewLine>, middle: seq<PreviewLine>, failed: set<Code>)
    requires OnlyCodesShrink(before, middle)
    ensures OnlyCodesShrink(before, Removed(middle, failed))
  {
  }
}
