/** The manual-renewal splitter: lines whose Adobe subscription asks for a manual renewal leave the
    normal flow, the part Adobe cannot renew becomes a new line, offers whose renewal preview is
    refused are diverted to a new order, and a retry replays the persisted split. */
module ManualRenewalSplit {
  import opened Sequences
  import opened Subscriptions

  type LineId = nat

  datatype Line = Line(id: LineId, sku: Sku, quantity: nat, oldQuantity: nat)

  // What the splitter reads of an Adobe subscription; the index is by partial SKU.
  datatype RenewableSub = RenewableSub(id: SubId, current: nat, manualRenewal: bool)

  type Index = map<Sku, RenewableSub>

  // Dictionaries keyed by the line's SKU, kept in insertion order.
  datatype RenewalInfo = RenewalInfo(line: Line, sub: SubId, renewal: nat, excess: nat)
  datatype DivertedInfo = DivertedInfo(line: Line, quantity: nat)

  /** The persisted parameter; orders in flight may still hold the flat form. */
  datatype Stored = Split(renewals: seq<RenewalInfo>, diverted: seq<DivertedInfo>) | Legacy(flat: seq<RenewalInfo>)

  datatype Lines = Lines(upsize: seq<Line>, newLines: seq<Line>, manual: seq<RenewalInfo>, diverted: seq<DivertedInfo>)

  /******* The split, stated without steps *******/

  predicate NeedsManualRenewal(line: Line, index: Index) {
    line.sku in index && index[line.sku].manualRenewal
  }

  function InfoOf(line: Line, index: Index): RenewalInfo
    requires NeedsManualRenewal(line, index)
  {
    var sub := index[line.sku];
    var renewal := if line.quantity <= sub.current then line.quantity else sub.current;
    RenewalInfo(line, sub.id, renewal, line.quantity - renewal)
  }

  function AsNew(line: Line, quantity: nat): seq<Line> {
    if quantity > 0 then [line.(quantity := quantity, oldQuantity := 0)] else []
  }

  function Classifier(index: Index): Line -> seq<RenewalInfo> {
    (line: Line) => if NeedsManualRenewal(line, index) then [InfoOf(line, index)] else []
  }

  function Outside(ids: set<LineId>): Line -> seq<Line> {
    (line: Line) => if line.id in ids then [] else [line]
  }

  function Surviving(ids: set<LineId>): RenewalInfo -> seq<RenewalInfo> {
    (info: RenewalInfo) => if info.line.id in ids then [] else [info]
  }

  function Entry(info: RenewalInfo): DivertedInfo {
    DivertedInfo(info.line, info.renewal + info.excess)
  }

  function Diverting(ids: set<LineId>): RenewalInfo -> seq<DivertedInfo> {
    (info: RenewalInfo) => if info.line.id in ids then [Entry(info)] else []
  }

  function ExcessLine(info: RenewalInfo): seq<Line> {
    AsNew(info.line, info.excess)
  }

  function ReplacementLine(info: DivertedInfo): seq<Line> {
    AsNew(info.line, info.quantity)
  }

  /** The renewal entries of the lines that need one, in line order. */
  function Infos(lines: seq<Line>, index: Index): seq<RenewalInfo> {
    FlatMap(lines, Classifier(index))
  }

  function Drop(lines: seq<Line>, ids: set<LineId>): seq<Line> {
    FlatMap(lines, Outside(ids))
  }

  function Excess(infos: seq<RenewalInfo>): seq<Line> {
    FlatMap(infos, ExcessLine)
  }

  function Replacements(diverted: seq<DivertedInfo>): seq<Line> {
    FlatMap(diverted, ReplacementLine)
  }

  function InfoIds(infos: seq<RenewalInfo>): set<LineId> {
    set info | info in infos :: info.line.id
  }

  function DivertedIds(diverted: seq<DivertedInfo>): set<LineId> {
    set info | info in diverted :: info.line.id
  }

  /** Reference definition: with `infos` classified and the ids in `refused` diverted, untouched lines
      stay in place, then come the excesses of the surviving renewals, then the diverted lines. */
  function SplitOf(upsize: seq<Line>, newLines: seq<Line>, infos: seq<RenewalInfo>, refused: set<LineId>): Lines {
    Arranged(upsize, newLines, InfoIds(infos), FlatMap(infos, Surviving(refused)), FlatMap(infos, Diverting(refused)))
  }

  function Arranged(
    upsize: seq<Line>, newLines: seq<Line>, ids: set<LineId>, manual: seq<RenewalInfo>,
    diverted: seq<DivertedInfo>): Lines
  {
    Lines(Drop(upsize, ids), Drop(newLines, ids) + Excess(manual) + Replacements(diverted), manual, diverted)
  }

  ghost predicate DistinctIds(lines: seq<Line>) {
    forall i, j :: 0 <= i < j < |lines| ==> lines[i].id != lines[j].id
  }

  ghost predicate DistinctInfoIds(infos: seq<RenewalInfo>) {
    forall i, j :: 0 <= i < j < |infos| ==> infos[i].line.id != infos[j].line.id
  }

  ghost predicate DistinctDivertedIds(diverted: seq<DivertedInfo>) {
    forall i, j :: 0 <= i < j < |diverted| ==> diverted[i].line.id != diverted[j].line.id
  }

  /******* Algebra of dropping *******/

  lemma DropTwice(lines: seq<Line>, first: set<LineId>, second: set<LineId>)
    ensures Drop(Drop(lines, first), second) == Drop(lines, first + second)
  {
    FlatMapThen(lines, Outside(first), Outside(second));
    forall line | line in lines
      ensures Then(Outside(first), Outside(second))(line) == Outside(first + second)(line)
    {
      FlatMapOne(line, Outside(second));
    }
    FlatMapSame(lines, Then(Outside(first), Outside(second)), Outside(first + second));
  }

  lemma DropNone(lines: seq<Line>, ids: set<LineId>)
    requires forall line :: line in lines ==> line.id !in ids
    ensures Drop(lines, ids) == lines
  {
    FlatMapIdentity(lines, Outside(ids));
  }

  lemma {:induction false} AsNewOutside(line: Line, quantity: nat, ids: set<LineId>)
    ensures FlatMap(AsNew(line, quantity), Outside(ids)) == if line.id in ids then [] else AsNew(line, quantity)
  {
    FlatMapOne(line.(quantity := quantity, oldQuantity := 0), Outside(ids));
  }

  /** Dropping ids commutes with turning entries into excess lines. */
  lemma DropExcess(infos: seq<RenewalInfo>, ids: set<LineId>)
    ensures Drop(Excess(infos), ids) == Excess(FlatMap(infos, Surviving(ids)))
  {
    FlatMapThen(infos, ExcessLine, Outside(ids));
    FlatMapThen(infos, Surviving(ids), ExcessLine);
    forall info | info in infos
      ensures Then(ExcessLine, Outside(ids))(info) == Then(Surviving(ids), ExcessLine)(info)
    {
      AsNewOutside(info.line, info.excess, ids);
      FlatMapOne(info, ExcessLine);
    }
    FlatMapSame(infos, Then(ExcessLine, Outside(ids)), Then(Surviving(ids), ExcessLine));
  }

  lemma DropReplacements(diverted: seq<DivertedInfo>, ids: set<LineId>)
    requires DivertedIds(diverted) !! ids
    ensures Drop(Replacements(diverted), ids) == Replacements(diverted)
  {
    FlatMapThen(diverted, ReplacementLine, Outside(ids));
    forall info | info in diverted
      ensures Then(ReplacementLine, Outside(ids))(info) == ReplacementLine(info)
    {
      assert info.line.id in DivertedIds(diverted);
      AsNewOutside(info.line, info.quantity, ids);
    }
    FlatMapSame(diverted, Then(ReplacementLine, Outside(ids)), ReplacementLine);
  }

  lemma SurvivingTwice(infos: seq<RenewalInfo>, first: set<LineId>, second: set<LineId>)
    ensures FlatMap(FlatMap(infos, Surviving(first)), Surviving(second)) == FlatMap(infos, Surviving(first + second))
  {
    FlatMapThen(infos, Surviving(first), Surviving(second));
    forall info | info in infos
      ensures Then(Surviving(first), Surviving(second))(info) == Surviving(first + second)(info)
    {
      FlatMapOne(info, Surviving(second));
    }
    FlatMapSame(infos, Then(Surviving(first), Surviving(second)), Surviving(first + second));
  }

  lemma AllSurvive(infos: seq<RenewalInfo>, ids: set<LineId>)
    requires InfoIds(infos) !! ids
    ensures FlatMap(infos, Surviving(ids)) == infos
  {
  }

  /** Surviving and diverted ids partition the classified ids. */
  lemma IdsPartition(infos: seq<RenewalInfo>, refused: set<LineId>)
    ensures InfoIds(FlatMap(infos, Surviving(refused))) == InfoIds(infos) - refused
    ensures DivertedIds(FlatMap(infos, Diverting(refused))) == InfoIds(infos) * refused
  {
    hide FlatMap;
    var manual, diverted := FlatMap(infos, Surviving(refused)), FlatMap(infos, Diverting(refused));
    forall info: RenewalInfo
      ensures info in manual <==> info in infos && info.line.id !in refused
    {
      FlatMapHas(infos, Surviving(refused), info);
    }
    forall id
      ensures id in DivertedIds(diverted) <==> id in InfoIds(infos) && id in refused
    {
      if id in InfoIds(infos) && id in refused {
        var info :| info in infos && info.line.id == id;
        FlatMapHas(infos, Diverting(refused), Entry(info));
      }
      if id in DivertedIds(diverted) {
        var info :| info in diverted && info.line.id == id;
        FlatMapHas(infos, Diverting(refused), info);
      }
    }
  }

  lemma {:induction false} PartsDistinct(infos: seq<RenewalInfo>, refused: set<LineId>)
    requires DistinctInfoIds(infos)
    ensures DistinctInfoIds(FlatMap(infos, Surviving(refused)))
    ensures DistinctDivertedIds(FlatMap(infos, Diverting(refused)))
  {
    if infos != [] {
      var front, last := infos[..|infos|-1], infos[|infos|-1];
      PartsDistinct(front, refused);
      IdsPartition(front, refused);
      assert last.line.id !in InfoIds(front);
      forall i | 0 <= i < |FlatMap(front, Surviving(refused))|
        ensures FlatMap(front, Surviving(refused))[i].line.id in InfoIds(FlatMap(front, Surviving(refused)))
      {
      }
      forall i | 0 <= i < |FlatMap(front, Diverting(refused))|
        ensures FlatMap(front, Diverting(refused))[i].line.id in DivertedIds(FlatMap(front, Diverting(refused)))
      {
      }
    }
  }

  lemma {:induction false} InfosFromLines(lines: seq<Line>, index: Index)
    requires DistinctIds(lines)
    ensures DistinctInfoIds(Infos(lines, index))
    ensures forall info :: info in Infos(lines, index) ==>
                             && info.line in lines && NeedsManualRenewal(info.line, index)
                                && info == InfoOf(info.line, index)
    ensures forall line :: line in lines ==>
              (line.id in InfoIds(Infos(lines, index)) <==> NeedsManualRenewal(line, index))
  {
    if lines != [] {
      var front, last := lines[..|lines|-1], lines[|lines|-1];
      InfosFromLines(front, index);
      assert lines == front + [last];
      var infos := Infos(front, index);
      forall i | 0 <= i < |infos|
        ensures infos[i].line.id != last.id
      {
        assert infos[i] in infos;
      }
      if NeedsManualRenewal(last, index) {
        assert InfoIds(infos + [InfoOf(last, index)]) == InfoIds(infos) + {last.id};
      }
    }
  }

  /******* Replaying the persisted split *******/

  /** Drop a line from both lists and add it back with the given quantity. */
  function Replaced(lines: Lines, line: Line, quantity: nat): Lines {
    lines.(upsize := Drop(lines.upsize, {line.id}),
           newLines := Drop(lines.newLines, {line.id}) + AsNew(line, quantity))
  }

  function ReplayRenewals(lines: Lines, renewals: seq<RenewalInfo>): Lines {
    if renewals == [] then lines else
    var info := renewals[|renewals|-1];
    Replaced(ReplayRenewals(lines, renewals[..|renewals|-1]), info.line, info.excess)
  }

  function ReplayDiverted(lines: Lines, diverted: seq<DivertedInfo>): Lines {
    if diverted == [] then lines else
    var info := diverted[|diverted|-1];
    Replaced(ReplayDiverted(lines, diverted[..|diverted|-1]), info.line, info.quantity)
  }

  function Moved(lines: Lines, ids: set<LineId>, added: seq<Line>): Lines {
    lines.(upsize := Drop(lines.upsize, ids), newLines := Drop(lines.newLines, ids) + added)
  }

  /** What _restore_from_stored does to the lines. */
  function Replay(upsize: seq<Line>, newLines: seq<Line>, renewals: seq<RenewalInfo>,
                  diverted: seq<DivertedInfo>): Lines {
    ReplayDiverted(ReplayRenewals(Lines(upsize, newLines, renewals, diverted), renewals), diverted)
  }

  lemma DropStep(lines: seq<Line>, ids: set<LineId>, id: LineId, extra: seq<Line>, extra': seq<Line>)
    requires Drop(extra, {id}) == extra'
    ensures Drop(Drop(lines, ids) + extra, {id}) == Drop(lines, ids + {id}) + extra'
  {
    FlatMapConcat(Drop(lines, ids), extra, Outside({id}));
    DropTwice(lines, ids, {id});
  }

  lemma LastInfoId(infos: seq<RenewalInfo>)
    requires infos != [] && DistinctInfoIds(infos)
    ensures var front, last := infos[..|infos|-1], infos[|infos|-1];
            DistinctInfoIds(front) && InfoIds(infos) == InfoIds(front) + {last.line.id}
            && last.line.id !in InfoIds(front)
  {
  }

  lemma LastDivertedId(diverted: seq<DivertedInfo>)
    requires diverted != [] && DistinctDivertedIds(diverted)
    ensures var front, last := diverted[..|diverted|-1], diverted[|diverted|-1];
            && DistinctDivertedIds(front)
            && DivertedIds(diverted) == DivertedIds(front) + {last.line.id} && last.line.id !in DivertedIds(front)
  {
  }

  lemma MovedNothing(lines: Lines)
    ensures Moved(lines, {}, []) == lines
  {
    DropNone(lines.upsize, {});
    DropNone(lines.newLines, {});
  }

  lemma MovedStep(lines: Lines, ids: set<LineId>, added: seq<Line>, line: Line, quantity: nat)
    requires Drop(added, {line.id}) == added
    ensures Replaced(Moved(lines, ids, added), line, quantity) ==
            Moved(lines, ids + {line.id}, added + AsNew(line, quantity))
  {
    DropTwice(lines.upsize, ids, {line.id});
    DropStep(lines.newLines, ids, line.id, added, added);
    var kept := Drop(lines.newLines, ids + {line.id});
    assert kept + added + AsNew(line, quantity) == kept + (added + AsNew(line, quantity));
  }

  lemma {:induction false} ReplayRenewalsClosed(lines: Lines, renewals: seq<RenewalInfo>)
    requires DistinctInfoIds(renewals)
    ensures ReplayRenewals(lines, renewals) == Moved(lines, InfoIds(renewals), Excess(renewals))
  {
    if renewals == [] {
      assert InfoIds(renewals) == {};
      MovedNothing(lines);
    } else {
      var front, info := renewals[..|renewals|-1], renewals[|renewals|-1];
      LastInfoId(renewals);
      ReplayRenewalsClosed(lines, front);
      DropExcess(front, {info.line.id});
      AllSurvive(front, {info.line.id});
      MovedStep(lines, InfoIds(front), Excess(front), info.line, info.excess);
    }
  }

  lemma {:induction false} ReplayDivertedClosed(lines: Lines, diverted: seq<DivertedInfo>)
    requires DistinctDivertedIds(diverted)
    ensures ReplayDiverted(lines, diverted) == Moved(lines, DivertedIds(diverted), Replacements(diverted))
  {
    if diverted == [] {
      assert DivertedIds(diverted) == {};
      MovedNothing(lines);
    } else {
      var front, info := diverted[..|diverted|-1], diverted[|diverted|-1];
      LastDivertedId(diverted);
      ReplayDivertedClosed(lines, front);
      DropReplacements(front, {info.line.id});
      MovedStep(lines, DivertedIds(front), Replacements(front), info.line, info.quantity);
    }
  }

  /** Main result: replaying the persisted split on the order's original lines gives back exactly the
      lines, in the same order, that classifying and diverting produced. */
  lemma ReplayEqualsCompute(upsize: seq<Line>, newLines: seq<Line>, infos: seq<RenewalInfo>, refused: set<LineId>)
    requires DistinctInfoIds(infos)
    ensures var split := SplitOf(upsize, newLines, infos, refused);
            Replay(upsize, newLines, split.manual, split.diverted) == split
  {
    hide FlatMap, ReplayRenewals, ReplayDiverted;
    var split := SplitOf(upsize, newLines, infos, refused);
    var kept, gone := InfoIds(split.manual), DivertedIds(split.diverted);
    PartsDistinct(infos, refused);
    IdsPartition(infos, refused);
    assert kept + gone == InfoIds(infos);
    var start := Lines(upsize, newLines, split.manual, split.diverted);
    ReplayRenewalsClosed(start, split.manual);
    ReplayDivertedClosed(ReplayRenewals(start, split.manual), split.diverted);
    DropTwice(upsize, kept, gone);
    DropTwice(newLines, kept, gone);
    FlatMapConcat(Drop(newLines, kept), Excess(split.manual), Outside(gone));
    DropExcess(split.manual, gone);
    AllSurvive(split.manual, gone);
  }

  /******* Conservation *******/

  function OfSku(sku: Sku): Line -> nat {
    (line: Line) => if line.sku == sku then line.quantity else 0
  }

  function RenewedOf(sku: Sku): RenewalInfo -> nat {
    (info: RenewalInfo) => if info.line.sku == sku then info.renewal else 0
  }

  function RequestedOf(sku: Sku): RenewalInfo -> nat {
    (info: RenewalInfo) => if info.line.sku == sku then info.line.quantity else 0
  }

  /** Quantity of the SKU that is still to be ordered through upsize and new lines. */
  function Ordered(split: Lines, sku: Sku): nat {
    Sum(split.upsize, OfSku(sku)) + Sum(split.newLines, OfSku(sku))
  }

  function Renewed(split: Lines, sku: Sku): nat {
    Sum(split.manual, RenewedOf(sku))
  }

  lemma LaterLinesStay(lines: seq<Line>, index: Index, n: nat)
    requires DistinctIds(lines) && n <= |lines|
    ensures Drop(lines[n..], InfoIds(Infos(lines[..n], index))) == lines[n..]
  {
    var infos := Infos(lines[..n], index);
    InfosFromLines(lines[..n], index);
    forall line | line in lines[n..]
      ensures line.id !in InfoIds(infos)
    {
      if info :| info in infos && info.line.id == line.id {
        assert info.line in lines[..n];
      }
    }
    DropNone(lines[n..], InfoIds(infos));
  }

  lemma DoneLinesMove(done: seq<Line>, index: Index, sku: Sku)
    requires DistinctIds(done)
    ensures var infos := Infos(done, index);
            Sum(done, OfSku(sku)) == Sum(Drop(done, InfoIds(infos)), OfSku(sku)) + Sum(infos, RequestedOf(sku))
  {
    hide Sum, FlatMap;
    var ids := InfoIds(Infos(done, index));
    InfosFromLines(done, index);
    var kept, moved := Weighing(Outside(ids), OfSku(sku)), Weighing(Classifier(index), RequestedOf(sku));
    SumFlatMap(done, Outside(ids), OfSku(sku));
    SumFlatMap(done, Classifier(index), RequestedOf(sku));
    forall line | line in done
      ensures OfSku(sku)(line) == kept(line) + moved(line)
    {
      SumNone(OfSku(sku));
      SumNone(RequestedOf(sku));
      if NeedsManualRenewal(line, index) {
        SumOne(InfoOf(line, index), RequestedOf(sku));
      } else {
        SumOne(line, OfSku(sku));
      }
    }
    SumSplits(done, OfSku(sku), kept, moved);
  }

  /** What leaves the lines is what the entries of the first `n` lines requested. */
  lemma DroppedIsRequested(lines: seq<Line>, index: Index, n: nat, sku: Sku)
    requires DistinctIds(lines) && n <= |lines|
    ensures var infos := Infos(lines[..n], index);
            Sum(lines, OfSku(sku)) == Sum(Drop(lines, InfoIds(infos)), OfSku(sku)) + Sum(infos, RequestedOf(sku))
  {
    hide FlatMap, Sum;
    var done, rest := lines[..n], lines[n..];
    var ids := InfoIds(Infos(done, index));
    assert lines == done + rest;
    LaterLinesStay(lines, index, n);
    DoneLinesMove(done, index, sku);
    SumConcat(done, rest, OfSku(sku));
    FlatMapConcat(done, rest, Outside(ids));
    SumConcat(Drop(done, ids), rest, OfSku(sku));
  }

  lemma AsNewWeighs(line: Line, quantity: nat, sku: Sku)
    ensures Sum(AsNew(line, quantity), OfSku(sku)) == if line.sku == sku then quantity else 0
  {
  }

  /** One entry ends up as renewal plus excess, or as one diverted line. */
  lemma EntryConserves(info: RenewalInfo, refused: set<LineId>, sku: Sku)
    requires info.renewal + info.excess == info.line.quantity
    ensures RequestedOf(sku)(info) ==
            Weighing(Then(Surviving(refused), ExcessLine), OfSku(sku))(info)
            + Weighing(Then(Diverting(refused), ReplacementLine), OfSku(sku))(info)
            + Weighing(Surviving(refused), RenewedOf(sku))(info)
  {
    if info.line.id in refused {
      assert Diverting(refused)(info) == [Entry(info)];
      FlatMapOne(Entry(info), ReplacementLine);
      AsNewWeighs(info.line, info.line.quantity, sku);
    } else {
      FlatMapOne(info, ExcessLine);
      AsNewWeighs(info.line, info.excess, sku);
      SumOne(info, RenewedOf(sku));
    }
  }

  function Plus<A>(f: A -> nat, g: A -> nat): A -> nat {
    (x: A) => f(x) + g(x)
  }

  lemma EntriesConserve(infos: seq<RenewalInfo>, refused: set<LineId>, sku: Sku)
    requires forall info :: info in infos ==> info.renewal + info.excess == info.line.quantity
    ensures Sum(infos, RequestedOf(sku)) ==
            Sum(Excess(FlatMap(infos, Surviving(refused))), OfSku(sku))
            + Sum(Replacements(FlatMap(infos, Diverting(refused))), OfSku(sku))
            + Sum(FlatMap(infos, Surviving(refused)), RenewedOf(sku))
  {
    hide FlatMap, Sum;
    var excess := Weighing(Then(Surviving(refused), ExcessLine), OfSku(sku));
    var replaced := Weighing(Then(Diverting(refused), ReplacementLine), OfSku(sku));
    var renewed := Weighing(Surviving(refused), RenewedOf(sku));
    forall info | info in infos
      ensures RequestedOf(sku)(info) == Plus(excess, replaced)(info) + renewed(info)
    {
      EntryConserves(info, refused, sku);
    }
    SumSplits(infos, RequestedOf(sku), Plus(excess, replaced), renewed);
    SumSplits(infos, Plus(excess, replaced), excess, replaced);
    FlatMapThen(infos, Surviving(refused), ExcessLine);
    SumFlatMap(infos, Then(Surviving(refused), ExcessLine), OfSku(sku));
    FlatMapThen(infos, Diverting(refused), ReplacementLine);
    SumFlatMap(infos, Then(Diverting(refused), ReplacementLine), OfSku(sku));
    SumFlatMap(infos, Surviving(refused), RenewedOf(sku));
  }

  lemma LinesConserve(upsize: seq<Line>, newLines: seq<Line>, infos: seq<RenewalInfo>, refused: set<LineId>, sku: Sku)
    ensures var split := SplitOf(upsize, newLines, infos, refused);
            Ordered(split, sku) == Sum(Drop(upsize + newLines, InfoIds(infos)), OfSku(sku))
                                   + Sum(Excess(split.manual), OfSku(sku))
                                   + Sum(Replacements(split.diverted), OfSku(sku))
  {
    hide FlatMap, Sum;
    var split, ids := SplitOf(upsize, newLines, infos, refused), InfoIds(infos);
    var up, kept := Drop(upsize, ids), Drop(newLines, ids);
    var excess, replacements := Excess(split.manual), Replacements(split.diverted);
    FlatMapConcat(upsize, newLines, Outside(ids));
    SumConcat(up, kept, OfSku(sku));
    SumConcat(kept + excess, replacements, OfSku(sku));
    SumConcat(kept, excess, OfSku(sku));
  }

  ghost predicate DistinctSkus(lines: seq<Line>) {
    forall i, j :: 0 <= i < j < |lines| ==> lines[i].sku != lines[j].sku
  }

  /** Every SKU has one entry at most, renewed or diverted. */
  ghost predicate OneEntryPerSku(split: Lines) {
    && (forall i, j :: 0 <= i < j < |split.manual| ==> split.manual[i].line.sku != split.manual[j].line.sku)
    && (forall i, j :: 0 <= i < j < |split.diverted| ==> split.diverted[i].line.sku != split.diverted[j].line.sku)
    && forall info, diverted :: info in split.manual && diverted in split.diverted ==>
                                  info.line.sku != diverted.line.sku
  }

  lemma EntriesAreOfLines(lines: seq<Line>, infos: seq<RenewalInfo>, refused: set<LineId>)
    requires DistinctInfoIds(infos) && forall info :: info in infos ==> info.line in lines
    ensures forall info :: info in FlatMap(infos, Surviving(refused)) ==> info.line in lines
    ensures forall diverted :: diverted in FlatMap(infos, Diverting(refused)) ==> diverted.line in lines
  {
    hide FlatMap;
    forall info | info in FlatMap(infos, Surviving(refused))
      ensures info.line in lines
    {
      FlatMapHas(infos, Surviving(refused), info);
    }
    forall diverted | diverted in FlatMap(infos, Diverting(refused))
      ensures diverted.line in lines
    {
      FlatMapHas(infos, Diverting(refused), diverted);
    }
  }

  lemma OneEntryEach(lines: seq<Line>, infos: seq<RenewalInfo>, refused: set<LineId>, split: Lines)
    requires DistinctSkus(lines) && DistinctInfoIds(infos) && forall info :: info in infos ==> info.line in lines
    requires split.manual == FlatMap(infos, Surviving(refused)) && split.diverted == FlatMap(infos, Diverting(refused))
    ensures OneEntryPerSku(split)
  {
    hide FlatMap;
    EntriesAreOfLines(lines, infos, refused);
    PartsDistinct(infos, refused);
    IdsPartition(infos, refused);
    forall info, diverted | info in split.manual && diverted in split.diverted
      ensures info.line.sku != diverted.line.sku
    {
      assert info.line.id in InfoIds(split.manual) && diverted.line.id in DivertedIds(split.diverted);
    }
  }

  /** Quantity conservation at every step of classifying (`n` lines done) and diverting (`refused`
      ids done): per SKU, what is renewed plus what is still ordered is what was requested; nothing
      is renewed beyond Adobe's current quantity, and nothing is bought for a renewed line before all of the
      current quantity is renewed; no SKU is both renewed and diverted, or twice either. */
  lemma SplitConserves(
    upsize: seq<Line>, newLines: seq<Line>, index: Index, n: nat, refused: set<LineId>, sku: Sku, split: Lines)
    requires DistinctIds(upsize + newLines) && DistinctSkus(upsize + newLines) && n <= |upsize + newLines|
    requires split == SplitOf(upsize, newLines, Infos((upsize + newLines)[..n], index), refused)
    ensures Sum(upsize, OfSku(sku)) + Sum(newLines, OfSku(sku)) == Ordered(split, sku) + Renewed(split, sku)
    ensures forall info :: info in split.manual ==>
                             info.line.sku in index && info.renewal <= index[info.line.sku].current
    ensures forall info :: info in split.manual && info.excess > 0 ==> info.renewal == index[info.line.sku].current
    ensures OneEntryPerSku(split) && InfoIds(split.manual) !! DivertedIds(split.diverted)
  {
    hide OneEntryPerSku, DistinctSkus;
    hide FlatMap, Sum, Drop, Excess, Replacements;
    var lines := upsize + newLines;
    var infos := Infos(lines[..n], index);
    InfosFromLines(lines[..n], index);
    SumConcat(upsize, newLines, OfSku(sku));
    DroppedIsRequested(lines, index, n, sku);
    EntriesConserve(infos, refused, sku);
    LinesConserve(upsize, newLines, infos, refused, sku);
    IdsPartition(infos, refused);
    OneEntryEach(lines, infos, refused, split);
    forall info | info in split.manual
      ensures info in infos
    {
      FlatMapHas(infos, Surviving(refused), info);
    }
  }

  /******* What the split is, line by line *******/

  /** A line leaves the normal flow exactly when Adobe has a subscription of its SKU that is to be renewed
      by hand. It is renewed up to the current quantity, or diverted in full if it is refused. */
  ghost predicate EntriesMean(
    upsize: seq<Line>, newLines: seq<Line>, index: Index, refused: set<LineId>, split: Lines)
  {
    && (forall info :: info in split.manual ==>
                         && (info.line in upsize || info.line in newLines) && info.line.id !in refused
                         && info.line.sku in index && index[info.line.sku].manualRenewal
                         && info.sub == index[info.line.sku].id
                         && info.renewal + info.excess == info.line.quantity
                         && info.renewal <= index[info.line.sku].current
                         && (info.excess > 0 ==> info.renewal == index[info.line.sku].current))
    && (forall entry :: entry in split.diverted ==>
                          && (entry.line in upsize || entry.line in newLines) && entry.line.id in refused
                          && entry.line.sku in index && index[entry.line.sku].manualRenewal
                          && entry.quantity == entry.line.quantity)
    && (forall line :: (line in upsize || line in newLines)
                       && line.sku in index && index[line.sku].manualRenewal ==>
                         if line.id in refused then DivertedIn(line, split) else RenewedIn(line, split))
  }

  ghost predicate RenewedIn(line: Line, split: Lines) {
    exists info :: info in split.manual && info.line == line
  }

  ghost predicate DivertedIn(line: Line, split: Lines) {
    exists entry :: entry in split.diverted && entry.line == line
  }

  /** Every other line stays where it was; what is ordered besides is the excess of a renewed line or all of
      a diverted one, as a new line. */
  ghost predicate RestMeans(upsize: seq<Line>, newLines: seq<Line>, index: Index, split: Lines) {
    && (forall line :: line in split.upsize <==>
          line in upsize && !(line.sku in index && index[line.sku].manualRenewal))
    && (forall line :: line in split.newLines <==>
          || (line in newLines && !(line.sku in index && index[line.sku].manualRenewal))
          || (exists info :: info in split.manual && IsRestOf(line, info.line, info.excess))
          || (exists entry :: entry in split.diverted && IsRestOf(line, entry.line, entry.quantity)))
  }

  ghost predicate IsRestOf(line: Line, original: Line, quantity: nat) {
    quantity > 0 && line == Line(original.id, original.sku, quantity, 0)
  }

  lemma {:induction false} SplitMeans(
    upsize: seq<Line>, newLines: seq<Line>, index: Index, refused: set<LineId>, split: Lines)
    requires DistinctIds(upsize + newLines)
    requires split == SplitOf(upsize, newLines, Infos(upsize + newLines, index), refused)
    ensures EntriesMean(upsize, newLines, index, refused, split)
    ensures RestMeans(upsize, newLines, index, split)
  {
    hide FlatMap;
    var lines := upsize + newLines;
    var infos := Infos(lines, index);
    InfosFromLines(lines, index);
    forall info: RenewalInfo
      ensures info in split.manual <==> info in infos && info.line.id !in refused
    {
      FlatMapHas(infos, Surviving(refused), info);
    }
    forall entry: DivertedInfo
      ensures entry in split.diverted <==>
              exists info :: info in infos && info.line.id in refused && entry == Entry(info)
    {
      FlatMapHas(infos, Diverting(refused), entry);
    }
    forall line | line in lines && NeedsManualRenewal(line, index)
      ensures if line.id in refused then DivertedIn(line, split) else RenewedIn(line, split)
    {
      var info :| info in infos && info.line.id == line.id;
      SameLineById(lines, info.line, line);
      if line.id in refused {
        assert Entry(info) in split.diverted;
      }
    }
    forall line: Line
      ensures line in Drop(upsize, InfoIds(infos)) <==> line in upsize && !NeedsManualRenewal(line, index)
      ensures line in Drop(newLines, InfoIds(infos)) <==> line in newLines && !NeedsManualRenewal(line, index)
    {
      FlatMapHas(upsize, Outside(InfoIds(infos)), line);
      FlatMapHas(newLines, Outside(InfoIds(infos)), line);
    }
    forall line: Line
      ensures line in Excess(split.manual) <==>
              exists info :: info in split.manual && IsRestOf(line, info.line, info.excess)
      ensures line in Replacements(split.diverted) <==>
              exists entry :: entry in split.diverted && IsRestOf(line, entry.line, entry.quantity)
    {
      FlatMapHas(split.manual, ExcessLine, line);
      FlatMapHas(split.diverted, ReplacementLine, line);
    }
  }

  lemma SameLineById(lines: seq<Line>, a: Line, b: Line)
    requires DistinctIds(lines) && a in lines && b in lines && a.id == b.id
    ensures a == b
  {
  }

  /******* Classifying one line at a time *******/

  /** Remove the first occurrence of `line`, if any. */
  function Without(lines: seq<Line>, line: Line): seq<Line> {
    if lines == [] then [] else
    if lines[0] == line then lines[1..] else [lines[0]] + Without(lines[1..], line)
  }

  function Classified(upsize: seq<Line>, newLines: seq<Line>, infos: seq<RenewalInfo>): Lines {
    Lines(Drop(upsize, InfoIds(infos)), Drop(newLines, InfoIds(infos)) + Excess(infos), infos, [])
  }

  lemma ClassifiedIsSplit(upsize: seq<Line>, newLines: seq<Line>, infos: seq<RenewalInfo>)
    ensures Classified(upsize, newLines, infos) == SplitOf(upsize, newLines, infos, {})
  {
    AllSurvive(infos, {});
    FlatMapNothing(infos, Diverting({}));
  }

  lemma ClassifiedNothing(upsize: seq<Line>, newLines: seq<Line>, index: Index)
    ensures Classified(upsize, newLines, Infos([], index)) == Lines(upsize, newLines, [], [])
  {
    assert InfoIds([]) == {};
    DropNone(upsize, {});
    DropNone(newLines, {});
  }

  lemma {:induction false} WithoutIsDrop(lines: seq<Line>, line: Line)
    requires DistinctIds(lines) && forall l :: l in lines && l.id == line.id ==> l == line
    ensures Without(lines, line) == Drop(lines, {line.id})
  {
    hide FlatMap;
    if lines == [] {
      DropNone(lines, {line.id});
    } else {
      assert lines == [lines[0]] + lines[1..];
      FlatMapConcat([lines[0]], lines[1..], Outside({line.id}));
      FlatMapOne(lines[0], Outside({line.id}));
      if lines[0] == line {
        DropNone(lines[1..], {line.id});
      } else {
        WithoutIsDrop(lines[1..], line);
      }
    }
  }

  /** One line registered as a renewal, taken out of its list, its excess re-added as a new line. */
  function Processed(lines: Lines, line: Line, index: Index): Lines
    requires NeedsManualRenewal(line, index)
  {
    var info := InfoOf(line, index);
    lines.(
    upsize := Without(lines.upsize, line),
    newLines := (if line in lines.upsize then lines.newLines else Without(lines.newLines, line))
    + AsNew(line, info.excess),
    manual := lines.manual + [info])
  }

  lemma {:induction false} WithoutPrefix(a: seq<Line>, b: seq<Line>, line: Line)
    requires line in a
    ensures Without(a + b, line) == Without(a, line) + b
  {
    assert (a + b)[0] == a[0] && (a + b)[1..] == a[1..] + b;
    if a[0] != line {
      WithoutPrefix(a[1..], b, line);
    }
  }

  lemma {:induction false} WithoutAbsent(lines: seq<Line>, line: Line)
    requires line !in lines
    ensures Without(lines, line) == lines
  {
    if lines != [] {
      WithoutAbsent(lines[1..], line);
    }
  }

  lemma {:induction false} DropDistinct(lines: seq<Line>, ids: set<LineId>)
    requires DistinctIds(lines)
    ensures DistinctIds(Drop(lines, ids)) && forall l :: l in Drop(lines, ids) <==> l in lines && l.id !in ids
  {
    if lines != [] {
      var front, last := lines[..|lines|-1], lines[|lines|-1];
      DropDistinct(front, ids);
      assert lines == front + [last];
      forall i | 0 <= i < |Drop(front, ids)|
        ensures Drop(front, ids)[i].id != last.id
      {
        assert Drop(front, ids)[i] in front;
      }
    }
  }

  /** Removing a line that is still there is dropping its id. */
  lemma WithoutFromDrop(lines: seq<Line>, ids: set<LineId>, line: Line)
    requires DistinctIds(lines) && line in lines && line.id !in ids
    ensures line in Drop(lines, ids) && Without(Drop(lines, ids), line) == Drop(lines, ids + {line.id})
  {
    DropDistinct(lines, ids);
    WithoutIsDrop(Drop(lines, ids), line);
    DropTwice(lines, ids, {line.id});
  }

  lemma DropAbsent(lines: seq<Line>, ids: set<LineId>, id: LineId)
    requires forall l :: l in lines ==> l.id != id
    ensures Drop(lines, ids + {id}) == Drop(lines, ids)
  {
    FlatMapSame(lines, Outside(ids + {id}), Outside(ids));
  }

  lemma NextInfos(lines: seq<Line>, index: Index, i: nat)
    requires i < |lines| && DistinctIds(lines)
    ensures Infos(lines[..i+1], index) == Infos(lines[..i], index) + Classifier(index)(lines[i])
    ensures lines[i].id !in InfoIds(Infos(lines[..i], index))
  {
    assert lines[..i+1][..i] == lines[..i];
    InfosFromLines(lines[..i], index);
    forall info | info in Infos(lines[..i], index)
      ensures info.line.id != lines[i].id
    {
      assert info.line in lines[..i];
    }
  }

  /** Taking one more line out of a classified split. */
  lemma ProcessedStep(upsize: seq<Line>, newLines: seq<Line>, infos: seq<RenewalInfo>, i: nat, index: Index)
    requires DistinctIds(upsize + newLines) && i < |upsize + newLines|
    requires (upsize + newLines)[i].id !in InfoIds(infos) && NeedsManualRenewal((upsize + newLines)[i], index)
    ensures Processed(Classified(upsize, newLines, infos), (upsize + newLines)[i], index) ==
            Classified(upsize, newLines, infos + [InfoOf((upsize + newLines)[i], index)])
  {
    hide FlatMap;
    var line, ids := (upsize + newLines)[i], InfoIds(infos);
    var info := InfoOf(line, index);
    var excess := Excess(infos);
    OtherListLacks(upsize, newLines, i);
    DropDistinct(upsize, ids);
    assert InfoIds(infos + [info]) == ids + {line.id};
    assert Excess(infos + [info]) == excess + AsNew(line, info.excess) by {
      FlatMapConcat(infos, [info], ExcessLine);
      FlatMapOne(info, ExcessLine);
    }
    var kept := Drop(newLines, ids + {line.id});
    if i < |upsize| {
      WithoutFromDrop(upsize, ids, line);
      DropAbsent(newLines, ids, line.id);
    } else {
      DropAbsent(upsize, ids, line.id);
      WithoutAbsent(Drop(upsize, ids), line);
      WithoutFromDrop(newLines, ids, line);
      WithoutPrefix(Drop(newLines, ids), excess, line);
    }
    assert kept + excess + AsNew(line, info.excess) == kept + (excess + AsNew(line, info.excess));
  }

  lemma ClassifiedNext(upsize: seq<Line>, newLines: seq<Line>, index: Index, i: nat)
    requires DistinctIds(upsize + newLines) && i < |upsize + newLines|
    ensures var lines := upsize + newLines;
            Classified(upsize, newLines, Infos(lines[..i+1], index)) ==
            var before := Classified(upsize, newLines, Infos(lines[..i], index));
            if NeedsManualRenewal(lines[i], index) then Processed(before, lines[i], index) else before
  {
    var lines := upsize + newLines;
    var infos := Infos(lines[..i], index);
    NextInfos(lines, index, i);
    if NeedsManualRenewal(lines[i], index) {
      ProcessedStep(upsize, newLines, infos, i, index);
    } else {
      assert infos + [] == infos;
    }
  }

  lemma OtherListLacks(upsize: seq<Line>, newLines: seq<Line>, i: nat)
    requires DistinctIds(upsize + newLines) && i < |upsize + newLines|
    ensures i < |upsize| ==> forall l :: l in newLines ==> l.id != (upsize + newLines)[i].id
    ensures i >= |upsize| ==> forall l :: l in upsize ==> l.id != (upsize + newLines)[i].id
    ensures DistinctIds(upsize) && DistinctIds(newLines)
    ensures if i < |upsize| then (upsize + newLines)[i] in upsize else (upsize + newLines)[i] in newLines
  {
    var lines := upsize + newLines;
    assert forall k :: 0 <= k < |upsize| ==> upsize[k] == lines[k];
    assert forall k :: 0 <= k < |newLines| ==> newLines[k] == lines[|upsize| + k];
  }

  /******* Diverting one entry at a time *******/

  lemma {:induction false} RemoveEntry(infos: seq<RenewalInfo>, refused: set<LineId>, k: nat)
    requires DistinctInfoIds(infos) && k < |infos| && infos[k].line.id !in refused
    ensures infos[k] in FlatMap(infos, Surviving(refused))
    ensures FlatMap(FlatMap(infos, Surviving(refused)), Surviving({infos[k].line.id})) ==
            FlatMap(infos, Surviving(refused + {infos[k].line.id}))
  {
    assert Surviving(refused)(infos[k]) == [infos[k]];
    FlatMapHas(infos, Surviving(refused), infos[k]);
    SurvivingTwice(infos, refused, {infos[k].line.id});
  }

  /** Only the entries up to `k` are diverted when the refused ids are among theirs. */
  lemma DivertedPrefix(infos: seq<RenewalInfo>, refused: set<LineId>, k: nat)
    requires DistinctInfoIds(infos) && k <= |infos| && refused <= InfoIds(infos[..k])
    ensures FlatMap(infos, Diverting(refused)) == FlatMap(infos[..k], Diverting(refused))
  {
    var head, tail := infos[..k], infos[k..];
    assert infos == head + tail;
    FlatMapConcat(head, tail, Diverting(refused));
    forall info | info in tail
      ensures info.line.id !in refused
    {
      assert forall other :: other in head ==> other.line.id != info.line.id;
    }
    FlatMapNothing(tail, Diverting(refused));
  }

  lemma {:induction false} NextId(infos: seq<RenewalInfo>, k: nat)
    requires DistinctInfoIds(infos) && k < |infos|
    ensures infos[k].line.id !in InfoIds(infos[..k])
    ensures InfoIds(infos[..k+1]) == InfoIds(infos[..k]) + {infos[k].line.id}
  {
    assert infos[..k+1] == infos[..k] + [infos[k]];
  }

  lemma {:induction false} DivertedBefore(head: seq<RenewalInfo>, refused: set<LineId>, id: LineId)
    requires id !in InfoIds(head)
    ensures FlatMap(head, Diverting(refused + {id})) == FlatMap(head, Diverting(refused))
  {
    forall info | info in head
      ensures Diverting(refused + {id})(info) == Diverting(refused)(info)
    {
      assert info.line.id in InfoIds(head);
    }
    FlatMapSame(head, Diverting(refused + {id}), Diverting(refused));
  }

  /** The id of entry `k` joins the refused ids of the entries before it: one more diverted entry,
      at the end. */
  lemma {:induction false} DivertOneMore(infos: seq<RenewalInfo>, refused: set<LineId>, k: nat, id: LineId)
    requires DistinctInfoIds(infos) && k < |infos| && refused <= InfoIds(infos[..k]) && id == infos[k].line.id
    ensures id !in refused && refused + {id} <= InfoIds(infos[..k+1])
    ensures FlatMap(infos, Diverting(refused + {id})) == FlatMap(infos, Diverting(refused)) + [Entry(infos[k])]
  {
    NextId(infos, k);
    DivertedPrefix(infos, refused, k);
    DivertedPrefix(infos, refused + {id}, k + 1);
    FlatMapNext(infos, k, Diverting(refused + {id}));
    DivertedBefore(infos[..k], refused, id);
  }

  /** _divert_renewal_to_new on the lines. */
  function DivertedLine(lines: Lines, info: RenewalInfo): Lines {
    lines.(
    newLines := Drop(lines.newLines, {info.line.id}) + AsNew(info.line, Entry(info).quantity),
    manual := FlatMap(lines.manual, Surviving({info.line.id})),
    diverted := lines.diverted + [Entry(info)])
  }

  lemma DropThree(a: seq<Line>, b: seq<Line>, c: seq<Line>, ids: set<LineId>)
    ensures Drop(a + b + c, ids) == Drop(a, ids) + Drop(b, ids) + Drop(c, ids)
  {
    FlatMapConcat(a + b, c, Outside(ids));
    FlatMapConcat(a, b, Outside(ids));
  }

  lemma DropFromArranged(
    newLines: seq<Line>, ids: set<LineId>, manual: seq<RenewalInfo>, diverted: seq<DivertedInfo>, id: LineId)
    requires id !in DivertedIds(diverted) && id in ids
    ensures Drop(Drop(newLines, ids) + Excess(manual) + Replacements(diverted), {id}) ==
            Drop(newLines, ids) + Excess(FlatMap(manual, Surviving({id}))) + Replacements(diverted)
  {
    DropThree(Drop(newLines, ids), Excess(manual), Replacements(diverted), {id});
    DropTwice(newLines, ids, {id});
    assert ids + {id} == ids;
    DropExcess(manual, {id});
    DropReplacements(diverted, {id});
  }

  lemma ReplacementsNext(diverted: seq<DivertedInfo>, entry: DivertedInfo)
    ensures Replacements(diverted + [entry]) == Replacements(diverted) + AsNew(entry.line, entry.quantity)
  {
  }

  lemma DivertArranged(
    upsize: seq<Line>, newLines: seq<Line>, ids: set<LineId>,
    manual: seq<RenewalInfo>, diverted: seq<DivertedInfo>, info: RenewalInfo)
    requires info.line.id !in DivertedIds(diverted) && info.line.id in ids
    ensures DivertedLine(Arranged(upsize, newLines, ids, manual, diverted), info) ==
            Arranged(upsize, newLines, ids, FlatMap(manual, Surviving({info.line.id})), diverted + [Entry(info)])
  {
    hide FlatMap;
    DropFromArranged(newLines, ids, manual, diverted, info.line.id);
    ReplacementsNext(diverted, Entry(info));
    var front := Drop(newLines, ids) + Excess(FlatMap(manual, Surviving({info.line.id})));
    var replacement := AsNew(info.line, Entry(info).quantity);
    assert (front + Replacements(diverted)) + replacement == front + (Replacements(diverted) + replacement);
  }

  lemma DivertNext(upsize: seq<Line>, newLines: seq<Line>, infos: seq<RenewalInfo>, refused: set<LineId>, k: nat)
    requires DistinctInfoIds(infos) && k < |infos| && refused <= InfoIds(infos[..k])
    ensures SplitOf(upsize, newLines, infos, refused + {infos[k].line.id}) ==
            DivertedLine(SplitOf(upsize, newLines, infos, refused), infos[k])
  {
    var info := infos[k];
    var manual, diverted := FlatMap(infos, Surviving(refused)), FlatMap(infos, Diverting(refused));
    RemoveEntry(infos, refused, k);
    DivertOneMore(infos, refused, k, info.line.id);
    assert info.line.id !in DivertedIds(diverted) by {
      IdsPartition(infos, refused);
    }
    DivertArranged(upsize, newLines, InfoIds(infos), manual, diverted, info);
  }

  /******* The step on the order's context *******/

  datatype Preview = Accepted | RenewalUnsupported | OtherError

  /** Adobe's answers to the previews of one attempt: to all the entries at once, to each of them alone
      (by line), and to the survivors at once. */
  datatype Previews = Previews(batch: Preview, alone: LineId -> Preview, survivors: Preview)

  /** The ids among `infos` whose renewal is not supported. */
  function Unsupported(infos: seq<RenewalInfo>, alone: LineId -> Preview): set<LineId> {
    set info | info in infos && alone(info.line.id).RenewalUnsupported? :: info.line.id
  }

  ghost predicate NoOtherError(infos: seq<RenewalInfo>, alone: LineId -> Preview) {
    forall info :: info in infos ==> !alone(info.line.id).OtherError?
  }

  lemma UnsupportedNext(infos: seq<RenewalInfo>, k: nat, alone: LineId -> Preview)
    requires k < |infos|
    ensures Unsupported(infos[..k+1], alone) ==
            if alone(infos[k].line.id).RenewalUnsupported? then Unsupported(infos[..k], alone) + {infos[k].line.id}
            else Unsupported(infos[..k], alone)
    ensures NoOtherError(infos[..k+1], alone) <==>
              NoOtherError(infos[..k], alone) && !alone(infos[k].line.id).OtherError?
    ensures NoOtherError(infos, alone) ==> NoOtherError(infos[..k+1], alone)
    ensures Unsupported(infos[..k], alone) <= InfoIds(infos[..k])
  {
    assert infos[..k+1] == infos[..k] + [infos[k]];
  }

  /** The order as SetupContext leaves it: nothing classified yet, line ids unique. */
  ghost predicate Unclassified(lines: Lines) {
    lines.manual == [] && lines.diverted == [] && DistinctIds(lines.upsize + lines.newLines)
  }

  /** The outcome of one attempt that computes the split from Adobe. */
  ghost predicate ComputedSplit(before: Lines, after: Lines, index: Index, refused: set<LineId>) {
    after == SplitOf(before.upsize, before.newLines, Infos(before.upsize + before.newLines, index), refused)
  }

  /** What an attempt that goes through diverts. */
  function Isolated(infos: seq<RenewalInfo>, answers: Previews): set<LineId> {
    if answers.batch.RenewalUnsupported? then Unsupported(infos, answers.alone) else {}
  }

  /** When the previews let the attempt go through, with `manual` what is left to renew. */
  ghost predicate Survives(infos: seq<RenewalInfo>, answers: Previews, manual: seq<RenewalInfo>) {
    match answers.batch
    case Accepted => true
    case OtherError => false
    case RenewalUnsupported => NoOtherError(infos, answers.alone) && (manual == [] || answers.survivors.Accepted?)
  }

  class SplitContext {
    var lines: Lines
    var stored: Option<Stored>

    constructor (upsize: seq<Line>, newLines: seq<Line>, stored: Option<Stored>)
      ensures lines == Lines(upsize, newLines, [], []) && this.stored == stored
    {
      lines := Lines(upsize, newLines, [], []);
      this.stored := stored;
    }

    /** _process_renewal_line */
    method ProcessRenewalLine(line: Line, index: Index)
      requires NeedsManualRenewal(line, index)
      modifies `lines
      ensures lines == Processed(old(lines), line, index)
      ensures |lines.manual| == |old(lines).manual| + 1
      ensures var info := lines.manual[|old(lines).manual|];
              && info.line == line && info.sub == index[line.sku].id
              && info.renewal + info.excess == line.quantity && info.renewal <= index[line.sku].current
              && (info.excess > 0 ==> info.renewal == index[line.sku].current)
    {
      var info := InfoOf(line, index);
      var upsize, newLines := lines.upsize, lines.newLines;
      if line in upsize {
        upsize := Without(upsize, line);
      } else {
        newLines := Without(newLines, line);
      }
      WithoutAbsentUnless(lines.upsize, line);
      if info.excess > 0 {
        newLines := newLines + [line.(quantity := info.excess, oldQuantity := 0)];
      }
      lines := lines.(upsize := upsize, newLines := newLines, manual := lines.manual + [info]);
    }

    /** _compute_from_adobe: classify a snapshot of the lines one by one. */
    method ComputeFromAdobe(index: Index)
      requires Unclassified(lines)
      modifies `lines
      ensures ComputedSplit(old(lines), lines, index, {})
    {
      hide FlatMap, Classified, Processed;
      ghost var upsize, newLines := lines.upsize, lines.newLines;
      var snapshot := lines.upsize + lines.newLines;
      ClassifiedNothing(upsize, newLines, index);
      for i := 0 to |snapshot|
        invariant lines == Classified(upsize, newLines, Infos(snapshot[..i], index))
      {
        ClassifiedNext(upsize, newLines, index, i);
        if NeedsManualRenewal(snapshot[i], index) {
          ProcessRenewalLine(snapshot[i], index);
        }
      }
      assert snapshot[..|snapshot|] == snapshot;
      ClassifiedIsSplit(upsize, newLines, Infos(snapshot, index));
    }

    /** _divert_renewal_to_new */
    method DivertRenewalToNew(info: RenewalInfo)
      modifies `lines
      ensures lines == DivertedLine(old(lines), info)
    {
      var full := info.renewal + info.excess;
      var newLines := Drop(lines.newLines, {info.line.id});
      if full > 0 {
        newLines := newLines + [info.line.(quantity := full, oldQuantity := 0)];
      }
      lines := lines.(newLines := newLines,
                      diverted := lines.diverted + [DivertedInfo(info.line, full)],
                      manual := FlatMap(lines.manual, Surviving({info.line.id})));
    }

    /** _divert_unsupported_lines: probe the entries one by one; an unexpected error stops the step. */
    method DivertUnsupportedLines(alone: LineId -> Preview, ghost before: Lines, index: Index)
      returns (ok: bool, ghost refused: set<LineId>)
      requires Unclassified(before) && ComputedSplit(before, lines, index, {})
      modifies `lines
      ensures ComputedSplit(before, lines, index, refused)
      ensures var infos := Infos(before.upsize + before.newLines, index);
              && refused <= InfoIds(infos)
              && (ok <==> NoOtherError(infos, alone))
              && (ok ==> refused == Unsupported(infos, alone))
    {
      ghost var all := before.upsize + before.newLines;
      var snapshot := lines.manual;
      ghost var infos := Infos(all, index);
      AllSurvive(infos, {});
      assert snapshot == infos;
      InfosFromLines(all, index);
      refused := {};
      for k := 0 to |snapshot|
        invariant refused == Unsupported(infos[..k], alone) && NoOtherError(infos[..k], alone)
        invariant ComputedSplit(before, lines, index, refused)
      {
        var answer := alone(snapshot[k].line.id);
        NextId(infos, k);
        UnsupportedNext(infos, k, alone);
        if answer.OtherError? {
          PrefixIds(infos, k);
          return false, refused;
        }
        if answer.RenewalUnsupported? {
          DivertNext(before.upsize, before.newLines, infos, refused, k);
          DivertRenewalToNew(snapshot[k]);
          refused := refused + {snapshot[k].line.id};
        }
      }
      PrefixIds(infos, |infos|);
      assert infos[..|infos|] == infos;
      return true, refused;
    }

    /** _isolate_unsupported_renewals: one batched preview; when it is refused as unsupported, probe
        the entries and preview the survivors again. */
    method IsolateUnsupportedRenewals(answers: Previews, ghost before: Lines, index: Index)
      returns (ok: bool, ghost refused: set<LineId>)
      requires Unclassified(before) && ComputedSplit(before, lines, index, {})
      modifies `lines
      ensures ComputedSplit(before, lines, index, refused)
      ensures ok ==> refused == Isolated(Infos(before.upsize + before.newLines, index), answers)
      ensures ok <==> Survives(Infos(before.upsize + before.newLines, index), answers, lines.manual)
    {
      if !answers.batch.RenewalUnsupported? {
        return answers.batch.Accepted?, {};
      }
      ok, refused := DivertUnsupportedLines(answers.alone, before, index);
      if ok && lines.manual != [] {
        ok := answers.survivors.Accepted?;
      }
    }

    /** _restore_from_stored: replay the renewals, then the diverted entries. */
    method RestoreFromStored(payload: Stored)
      modifies `lines
      ensures payload.Split? ==>
                lines == Replay(old(lines).upsize, old(lines).newLines, payload.renewals, payload.diverted)
      ensures payload.Legacy? ==> lines == Replay(old(lines).upsize, old(lines).newLines, payload.flat, [])
    {
      hide FlatMap, Replaced;
      var renewals := if payload.Split? then payload.renewals else payload.flat;
      var diverted := if payload.Split? then payload.diverted else [];
      lines := Lines(lines.upsize, lines.newLines, renewals, diverted);
      ghost var start := lines;
      for i := 0 to |renewals|
        invariant lines == ReplayRenewals(start, renewals[..i])
      {
        assert renewals[..i+1][..i] == renewals[..i];
        ReplaceLine(renewals[i].line, renewals[i].excess);
      }
      assert renewals[..|renewals|] == renewals;
      ghost var middle := lines;
      for i := 0 to |diverted|
        invariant lines == ReplayDiverted(middle, diverted[..i])
      {
        assert diverted[..i+1][..i] == diverted[..i];
        ReplaceLine(diverted[i].line, diverted[i].quantity);
      }
      assert diverted[..|diverted|] == diverted;
    }

    /** Drop a line from both lists and, if anything is left of it, re-add it as a new line. */
    method ReplaceLine(line: Line, quantity: nat)
      modifies `lines
      ensures lines == Replaced(old(lines), line, quantity)
    {
      var upsize, newLines := Drop(lines.upsize, {line.id}), Drop(lines.newLines, {line.id});
      if quantity > 0 {
        newLines := newLines + [line.(quantity := quantity, oldQuantity := 0)];
      }
      lines := lines.(upsize := upsize, newLines := newLines);
    }

    /** CheckManualRenewalSubscriptions. A first attempt that goes through diverts exactly what Adobe
        refused alone after refusing the batch, and persists the split if it is not empty; a failed one
        persists nothing. Any attempt that finds a persisted split of the order's lines reproduces it,
        whatever Adobe says now. */
    method CheckManualRenewals(index: Index, answers: Previews) returns (ok: bool, ghost refused: set<LineId>)
      requires Unclassified(lines)
      modifies this
      ensures old(stored).None? ==>
                && ComputedSplit(old(lines), lines, index, refused)
                && EntriesMean(old(lines).upsize, old(lines).newLines, index, refused, lines)
                && RestMeans(old(lines).upsize, old(lines).newLines, index, lines)
      ensures old(stored).None? && ok ==>
                RefusedAre(old(lines).upsize + old(lines).newLines, index, answers, refused)
      ensures old(stored).None? && ok ==>
                var infos := Infos(old(lines).upsize + old(lines).newLines, index);
                && (refused == if infos == [] then {} else Isolated(infos, answers))
                && (stored == if lines.manual == [] && lines.diverted == [] then None
                              else Some(Split(lines.manual, lines.diverted)))
      ensures old(stored).None? && !ok ==>
                stored.None? && !Survives(Infos(old(lines).upsize + old(lines).newLines, index), answers, lines.manual)
      ensures old(stored).Some? ==> ok && stored == old(stored)
      ensures forall first: Index, ids: set<LineId>, earlier: Lines ::
                old(stored) == Some(Split(earlier.manual, earlier.diverted))
                && ComputedSplit(old(lines), earlier, first, ids) ==>
                  lines == earlier
    {
      hide Infos, SplitOf, Replay, Isolated, Survives, EntriesMean, RestMeans, RefusedAre;
      refused := {};
      if stored.Some? {
        RestoreFromStored(stored.value);
        forall first: Index, ids: set<LineId>, earlier: Lines
          | stored == Some(Split(earlier.manual, earlier.diverted)) && ComputedSplit(old(lines), earlier, first, ids)
          ensures lines == earlier
        {
          var all := old(lines).upsize + old(lines).newLines;
          InfosFromLines(all, first);
          ReplayEqualsCompute(old(lines).upsize, old(lines).newLines, Infos(all, first), ids);
        }
        return true, {};
      }
      ghost var before := lines;
      ComputeFromAdobe(index);
      NothingDiverted(before.upsize, before.newLines, Infos(before.upsize + before.newLines, index));
      if lines.manual != [] {
        ok, refused := IsolateUnsupportedRenewals(answers, before, index);
        if !ok {
          SplitMeans(before.upsize, before.newLines, index, refused, lines);
          return;
        }
      }
      if lines.manual != [] || lines.diverted != [] {
        stored := Some(Split(lines.manual, lines.diverted));
      }
      SplitMeans(before.upsize, before.newLines, index, refused, lines);
      IsolatedAreRefused(before.upsize + before.newLines, index, answers);
      ok := true;
    }
  }

  /** Of the lines to renew, the refused ones are exactly those Adobe refused alone as unsupported, after
      it had refused the batch for that. */
  ghost predicate RefusedAre(lines: seq<Line>, index: Index, answers: Previews, refused: set<LineId>) {
    forall line :: line in lines && line.sku in index && index[line.sku].manualRenewal ==>
                     (line.id in refused <==>
                      answers.batch.RenewalUnsupported? && answers.alone(line.id).RenewalUnsupported?)
  }

  lemma IsolatedAreRefused(lines: seq<Line>, index: Index, answers: Previews)
    requires DistinctIds(lines)
    ensures var infos := Infos(lines, index);
            RefusedAre(lines, index, answers, if infos == [] then {} else Isolated(infos, answers))
  {
    hide Infos;
    InfosFromLines(lines, index);
    forall line | line in lines && line.sku in index && index[line.sku].manualRenewal
      ensures line.id in InfoIds(Infos(lines, index))
    {
      assert NeedsManualRenewal(line, index);
    }
  }

  lemma NothingDiverted(upsize: seq<Line>, newLines: seq<Line>, infos: seq<RenewalInfo>)
    ensures SplitOf(upsize, newLines, infos, {}).manual == infos
  {
    AllSurvive(infos, {});
  }

  /** A split that renews and diverts nothing leaves the order's lines as they were. */
  lemma EmptySplit(before: Lines, after: Lines, index: Index, refused: set<LineId>)
    requires Unclassified(before) && ComputedSplit(before, after, index, refused)
    requires after.manual == [] && after.diverted == []
    ensures after == before
  {
    hide Infos, FlatMap;
    var infos := Infos(before.upsize + before.newLines, index);
    IdsPartition(infos, refused);
    assert FlatMap(infos, Surviving(refused)) == [] && FlatMap(infos, Diverting(refused)) == [];
    assert InfoIds(infos) == (InfoIds(infos) - refused) + InfoIds(infos) * refused == {};
    DropNone(before.upsize, {});
    DropNone(before.newLines, {});
    NothingAdded();
  }

  lemma NothingAdded()
    ensures Excess([]) == [] && Replacements([]) == []
  {
  }

  lemma {:induction false} WithoutAbsentUnless(lines: seq<Line>, line: Line)
    ensures line !in lines ==> Without(lines, line) == lines
  {
    if line !in lines {
      WithoutAbsent(lines, line);
    }
  }

  lemma PrefixIds(infos: seq<RenewalInfo>, k: nat)
    requires k <= |infos|
    ensures InfoIds(infos[..k]) <= InfoIds(infos)
  {
  }
}
