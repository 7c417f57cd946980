/** The flat-project page: the list of scenario cards with its shared project total,
    and the partners who split the revenue. Each handler is a function (or, where
    the page runs a loop, a method) from the page state before an event to the
    state after it. */
module PricingPage {
  import opened Wrappers
  import opened JsText
  import opened Types
  import opened ScenarioList

  /** The page's state: the count typed in the count field, the scenario cards, the
      partners and the project total typed once for every card. */
  datatype PricingState = PricingState(
    numScenarios: int,
    scenarios: seq<ScenarioData>,
    participants: seq<Participant>,
    globalTotal: string)

  /** The state the page opens with: one empty card and two partners at 70 % and 30 %. */
  function InitialState(): PricingState {
    PricingState(
      1,
      [ScenarioData(1, "", "", "", "", "")],
      [Participant(1, "Participante 1", 70.0), Participant(2, "Participante 2", 30.0)],
      "")
  }

  /** Every card shows the shared project total. */
  predicate TotalsFollowGlobal(st: PricingState) {
    forall i :: 0 <= i < |st.scenarios| ==> st.scenarios[i].totalProjeto == st.globalTotal
  }

  function ScenarioId(s: ScenarioData): int {
    s.id
  }

  // ---------------------------------------------------------------------------
  // Scenario cards

  /** The card added when the list grows: the shared total, every other field empty. */
  function NewScenario(id: int, globalTotal: string): ScenarioData {
    ScenarioData(id, globalTotal, "", "", "", "")
  }

  function ScenarioMaker(globalTotal: string): int -> ScenarioData {
    id => NewScenario(id, globalTotal)
  }

  /** `handleNumScenariosChange`: a count from 1 to 10 sets the count and resizes the
      list, adding cards that carry the shared total; an emptied field sets the count
      to 0 and keeps the cards; any other text changes nothing. Card ids 1..n and the
      shared total on every card survive the change. */
  method HandleNumScenariosChange(st: PricingState, text: string) returns (r: PricingState)
    ensures match CountActionOf(text)
      case Resize(n) =>
        r == st.(numScenarios := n, scenarios := Resized(st.scenarios, n, ScenarioMaker(st.globalTotal)))
      case ClearCount => r == st.(numScenarios := 0)
      case Ignore => r == st
    ensures IdsSequential(st.scenarios, ScenarioId) ==> IdsSequential(r.scenarios, ScenarioId)
    ensures TotalsFollowGlobal(st) ==> TotalsFollowGlobal(r)
  {
    r := st;
    match CountActionOf(text)
    case Resize(n) =>
      var next := ResizeList(st.scenarios, n, ScenarioMaker(st.globalTotal));
      r := r.(numScenarios := n, scenarios := next);
      if IdsSequential(st.scenarios, ScenarioId) {
        ResizeKeepsIdsSequential(st.scenarios, n, ScenarioMaker(st.globalTotal), ScenarioId);
      }
      if TotalsFollowGlobal(st) {
        ResizeKeepsTotals(st.scenarios, n, st.globalTotal);
      }
    case ClearCount =>
      r := r.(numScenarios := 0);
    case Ignore =>
  }

  /** Resizing keeps every card on the shared total: old cards keep theirs and new
      cards are made with it. */
  lemma ResizeKeepsTotals(prev: seq<ScenarioData>, n: nat, globalTotal: string)
    requires forall i :: 0 <= i < |prev| ==> prev[i].totalProjeto == globalTotal
    ensures var next := Resized(prev, n, ScenarioMaker(globalTotal));
      forall i :: 0 <= i < |next| ==> next[i].totalProjeto == globalTotal
  {
    var next := Resized(prev, n, ScenarioMaker(globalTotal));
    forall i | 0 <= i < |next|
      ensures next[i].totalProjeto == globalTotal
    {
      if i < |prev| && n > |prev| {
        assert next[i] == next[..|prev|][i];
      }
    }
  }

  /** The text fields of a card that the card's inputs edit. */
  datatype ScenarioField = TotalProjeto | EntradaReais | EntradaPercentual | Parcelas | DataPrimeiraParcela

  function GetField(s: ScenarioData, f: ScenarioField): string {
    match f
    case TotalProjeto => s.totalProjeto
    case EntradaReais => s.entradaReais
    case EntradaPercentual => s.entradaPercentual
    case Parcelas => s.parcelas
    case DataPrimeiraParcela => s.dataPrimeiraParcela
  }

  /** `{ ...s, [field]: value }`: the named field takes the value, the id and every
      other field keep theirs. */
  function SetField(s: ScenarioData, f: ScenarioField, v: string): (r: ScenarioData)
    ensures r.id == s.id
    ensures GetField(r, f) == v
    ensures forall g :: g != f ==> GetField(r, g) == GetField(s, g)
  {
    match f
    case TotalProjeto => s.(totalProjeto := v)
    case EntradaReais => s.(entradaReais := v)
    case EntradaPercentual => s.(entradaPercentual := v)
    case Parcelas => s.(parcelas := v)
    case DataPrimeiraParcela => s.(dataPrimeiraParcela := v)
  }

  /** Writing back a field's own value changes nothing. */
  lemma SetFieldToItsValue(s: ScenarioData, f: ScenarioField)
    ensures SetField(s, f, GetField(s, f)) == s
  {
  }

  /** `handleScenarioChange`: the named field of every card with the id takes the
      value; ids, the other fields and the other cards are untouched. */
  function HandleScenarioChange(scenarios: seq<ScenarioData>, id: int, f: ScenarioField, v: string)
    : (r: seq<ScenarioData>)
    ensures |r| == |scenarios|
    ensures forall i :: 0 <= i < |r| ==> r[i].id == scenarios[i].id
    ensures forall i :: 0 <= i < |r| ==>
      GetField(r[i], f) == (if scenarios[i].id == id then v else GetField(scenarios[i], f))
    ensures forall i, g :: 0 <= i < |r| && g != f ==> GetField(r[i], g) == GetField(scenarios[i], g)
  {
    seq(|scenarios|, i requires 0 <= i < |scenarios| =>
      if scenarios[i].id == id then SetField(scenarios[i], f, v) else scenarios[i])
  }

  /** Typing the same value twice is the same as typing it once. */
  lemma ScenarioChangeIdempotent(scenarios: seq<ScenarioData>, id: int, f: ScenarioField, v: string)
    ensures HandleScenarioChange(HandleScenarioChange(scenarios, id, f, v), id, f, v)
         == HandleScenarioChange(scenarios, id, f, v)
  {
    var once := HandleScenarioChange(scenarios, id, f, v);
    var twice := HandleScenarioChange(once, id, f, v);
    forall i | 0 <= i < |once|
      ensures twice[i] == once[i]
    {
      if once[i].id == id {
        SetFieldToItsValue(once[i], f);
      }
    }
  }

  /** `handleGlobalTotalChange`: the shared total takes the value and so does the
      total of every card; nothing else changes. */
  function HandleGlobalTotalChange(st: PricingState, v: string): (r: PricingState)
    ensures r.globalTotal == v && TotalsFollowGlobal(r)
    ensures r.numScenarios == st.numScenarios && r.participants == st.participants
    ensures |r.scenarios| == |st.scenarios|
    ensures forall i :: 0 <= i < |r.scenarios| ==> r.scenarios[i].id == st.scenarios[i].id
    ensures forall i, g :: 0 <= i < |r.scenarios| && g != TotalProjeto ==>
      GetField(r.scenarios[i], g) == GetField(st.scenarios[i], g)
  {
    st.(globalTotal := v,
        scenarios := seq(|st.scenarios|, i requires 0 <= i < |st.scenarios| =>
          SetField(st.scenarios[i], TotalProjeto, v)))
  }

  // ---------------------------------------------------------------------------
  // Partners

  predicate DistinctIds(ps: seq<Participant>) {
    forall i, j :: 0 <= i < j < |ps| ==> ps[i].id != ps[j].id
  }

  /** `Math.max` over the partners' ids. */
  function MaxId(ps: seq<Participant>): (m: int)
    requires |ps| > 0
    ensures forall i :: 0 <= i < |ps| ==> ps[i].id <= m
    ensures exists i :: 0 <= i < |ps| && ps[i].id == m
  {
    if |ps| == 1 then ps[0].id
    else
      var m := MaxId(ps[1..]);
      assert forall i :: 1 <= i < |ps| ==> ps[i] == ps[1..][i - 1];
      if ps[0].id > m then ps[0].id else m
  }

  /** The id `addParticipant` gives: one more than the largest, or 1 for an empty list;
      it is larger than every id in use. */
  function NextParticipantId(ps: seq<Participant>): (id: int)
    ensures forall i :: 0 <= i < |ps| ==> ps[i].id < id
    ensures |ps| == 0 ==> id == 1
  {
    if |ps| > 0 then MaxId(ps) + 1 else 1
  }

  /** The sum of the percentages, added up from the left as `reduce` does: 0 for no
      partners, and never negative when no percentage is. */
  function TotalPercentage(ps: seq<Participant>): (t: real)
    ensures |ps| == 0 ==> t == 0.0
    ensures (forall i :: 0 <= i < |ps| ==> ps[i].percentage >= 0.0) ==> t >= 0.0
  {
    if |ps| == 0 then 0.0 else TotalPercentage(ps[..|ps| - 1]) + ps[|ps| - 1].percentage
  }

  /** `addParticipant`: one partner is appended, with a new id, the name
      "Participante <id>" and 0 %; ids stay distinct and the total is unchanged. */
  function AddParticipant(ps: seq<Participant>): (r: seq<Participant>)
    ensures |r| == |ps| + 1 && r[..|ps|] == ps
    ensures r[|ps|].id == NextParticipantId(ps) && r[|ps|].percentage == 0.0
    ensures r[|ps|].name == "Participante " + IntToString(r[|ps|].id)
    ensures DistinctIds(ps) ==> DistinctIds(r)
    ensures TotalPercentage(r) == TotalPercentage(ps)
  {
    var id := NextParticipantId(ps);
    var r := ps + [Participant(id, "Participante " + IntToString(id), 0.0)];
    assert r[..|ps|] == ps;
    r
  }

  /** `participants.filter(p => p.id !== id)`: exactly the partners with another
      id remain, in their order (`WithoutAppend`), and distinct ids stay distinct. */
  function Without(ps: seq<Participant>, id: int): (r: seq<Participant>)
    ensures |r| <= |ps|
    ensures forall p :: p in r <==> p in ps && p.id != id
    ensures DistinctIds(ps) ==> DistinctIds(r)
  {
    if |ps| == 0 then []
    else
      var w := Without(ps[..|ps| - 1], id);
      assert ps == ps[..|ps| - 1] + [ps[|ps| - 1]];
      if ps[|ps| - 1].id == id then w else w + [ps[|ps| - 1]]
  }

  /** `removeParticipant`: with at most one partner nothing happens, otherwise every
      partner with the id goes and the others keep their order; distinct ids stay
      distinct. */
  function RemoveParticipant(ps: seq<Participant>, id: int): (r: seq<Participant>)
    ensures |ps| <= 1 ==> r == ps
    ensures |ps| > 1 ==> forall p :: p in r <==> p in ps && p.id != id
    ensures |ps| > 1 ==> r == Without(ps, id)
    ensures DistinctIds(ps) ==> DistinctIds(r)
  {
    if |ps| <= 1 then ps else Without(ps, id)
  }

  /** Filtering a concatenation filters each part and keeps them in order; with the
      one-partner case, which keeps the partner exactly when its id differs, this
      pins `Without` down as an order-preserving filter. */
  lemma {:induction false} WithoutAppend(a: seq<Participant>, b: seq<Participant>, id: int)
    ensures Without(a + b, id) == Without(a, id) + Without(b, id)
  {
    if |b| == 0 {
      assert a + b == a;
    } else {
      var init, last := b[..|b| - 1], b[|b| - 1];
      var kept := if last.id == id then [] else [last];
      assert b == init + [last];
      assert a + b == (a + init) + [last];
      calc {
        Without(a + b, id);
        { WithoutSnoc(a + init, last, id); }
        Without(a + init, id) + kept;
        { WithoutAppend(a, init, id); }
        (Without(a, id) + Without(init, id)) + kept;
        Without(a, id) + (Without(init, id) + kept);
        { WithoutSnoc(init, last, id); }
        Without(a, id) + Without(b, id);
      }
    }
  }

  /** Filtering a list with one more partner at the end. */
  lemma WithoutSnoc(s: seq<Participant>, x: Participant, id: int)
    ensures Without(s + [x], id) == Without(s, id) + (if x.id == id then [] else [x])
  {
    assert (s + [x])[..|s|] == s;
  }

  /** The partner list after clicking remove on each id in turn. */
  function RemoveEach(ps: seq<Participant>, ids: seq<int>): seq<Participant>
    decreases |ids|
  {
    if |ids| == 0 then ps else RemoveEach(RemoveParticipant(ps, ids[0]), ids[1..])
  }

  /** However many partners are removed one after another, ids stay distinct and
      the list never becomes empty. */
  lemma {:induction false} RemovalsKeepSomeone(ps: seq<Participant>, ids: seq<int>)
    requires DistinctIds(ps) && |ps| >= 1
    ensures DistinctIds(RemoveEach(ps, ids)) && |RemoveEach(ps, ids)| >= 1
    decreases |ids|
  {
    if |ids| > 0 {
      RemoveKeepsSomeone(ps, ids[0]);
      RemovalsKeepSomeone(RemoveParticipant(ps, ids[0]), ids[1..]);
    }
  }

  lemma {:induction false} WithoutAbsent(ps: seq<Participant>, id: int)
    requires forall i :: 0 <= i < |ps| ==> ps[i].id != id
    ensures Without(ps, id) == ps
  {
    if |ps| > 0 {
      var init := ps[..|ps| - 1];
      WithoutAbsent(init, id);
      assert ps == init + [ps[|ps| - 1]];
    }
  }

  /** With distinct ids, removing a partner who is there drops exactly that partner:
      the list is one shorter and the total loses that partner's percentage. */
  lemma {:induction false} WithoutPresent(ps: seq<Participant>, id: int, k: int)
    requires DistinctIds(ps) && 0 <= k < |ps| && ps[k].id == id
    ensures |Without(ps, id)| == |ps| - 1
    ensures TotalPercentage(Without(ps, id)) == TotalPercentage(ps) - ps[k].percentage
  {
    var n := |ps| - 1;
    var init := ps[..n];
    if k == n {
      WithoutAbsent(init, id);
    } else {
      assert init[k] == ps[k];
      WithoutPresent(init, id, k);
      var w := Without(init, id);
      assert (w + [ps[n]])[..|w|] == w;
    }
  }

  /** With distinct ids, removal never leaves the page without partners. */
  lemma RemoveKeepsSomeone(ps: seq<Participant>, id: int)
    requires DistinctIds(ps) && |ps| >= 1
    ensures |RemoveParticipant(ps, id)| >= 1
  {
    if |ps| > 1 {
      if k :| 0 <= k < |ps| && ps[k].id == id {
        WithoutPresent(ps, id, k);
      } else {
        WithoutAbsent(ps, id);
      }
    }
  }

  /** The two edits a partner's inputs make. */
  datatype ParticipantUpdate = SetName(name: string) | SetPercentage(percentage: real)

  /** The percentage input's value: `parseFloat(text) || 0`. */
  function PercentageFromText(text: string): (pct: real)
    ensures ParseFloat(text).None? ==> pct == 0.0
    ensures ParseFloat(text).Some? ==> pct == ParseFloat(text).value
  {
    OrElse(ParseFloat(text), 0.0)
  }

  function Apply(p: Participant, u: ParticipantUpdate): Participant {
    match u
    case SetName(name) => p.(name := name)
    case SetPercentage(pct) => p.(percentage := pct)
  }

  /** `updateParticipant`: the partners with the id take the edit, the others are
      untouched; ids never change. */
  function UpdateParticipant(ps: seq<Participant>, id: int, u: ParticipantUpdate): (r: seq<Participant>)
    ensures |r| == |ps|
    ensures forall i :: 0 <= i < |r| ==> r[i].id == ps[i].id
    ensures forall i :: 0 <= i < |r| && ps[i].id != id ==> r[i] == ps[i]
    ensures forall i :: 0 <= i < |r| && ps[i].id == id ==>
      if u.SetName? then r[i].name == u.name && r[i].percentage == ps[i].percentage
      else r[i].percentage == u.percentage && r[i].name == ps[i].name
  {
    seq(|ps|, i requires 0 <= i < |ps| => if ps[i].id == id then Apply(ps[i], u) else ps[i])
  }

  /** Changing one entry's percentage moves the total by exactly the change. */
  lemma {:induction false} TotalAfterOneChange(a: seq<Participant>, b: seq<Participant>, k: int)
    requires |a| == |b| && 0 <= k < |a|
    requires forall i :: 0 <= i < |a| && i != k ==> a[i].percentage == b[i].percentage
    ensures TotalPercentage(b) == TotalPercentage(a) - a[k].percentage + b[k].percentage
  {
    var n := |a| - 1;
    if k == n {
      TotalOfSamePercentages(a[..n], b[..n]);
    } else {
      TotalAfterOneChange(a[..n], b[..n], k);
    }
  }

  lemma {:induction false} TotalOfSamePercentages(a: seq<Participant>, b: seq<Participant>)
    requires |a| == |b|
    requires forall i :: 0 <= i < |a| ==> a[i].percentage == b[i].percentage
    ensures TotalPercentage(a) == TotalPercentage(b)
  {
    if |a| > 0 {
      TotalOfSamePercentages(a[..|a| - 1], b[..|b| - 1]);
    }
  }

  /** With no negative percentage, each partner's share is at most the total. */
  lemma {:induction false} ShareAtMostTotal(ps: seq<Participant>, k: int)
    requires forall i :: 0 <= i < |ps| ==> ps[i].percentage >= 0.0
    requires 0 <= k < |ps|
    ensures ps[k].percentage <= TotalPercentage(ps)
  {
    var n := |ps| - 1;
    var init := ps[..n];
    assert forall i :: 0 <= i < |init| ==> init[i].percentage >= 0.0;
    if k < n {
      assert init[k] == ps[k];
      ShareAtMostTotal(init, k);
    }
  }

  /** With distinct ids, setting a partner's percentage moves the total from the old
      percentage to the new one; renaming leaves the total alone. */
  lemma UpdateMovesTotal(ps: seq<Participant>, k: int, u: ParticipantUpdate)
    requires DistinctIds(ps) && 0 <= k < |ps|
    ensures TotalPercentage(UpdateParticipant(ps, ps[k].id, u))
         == if u.SetPercentage? then TotalPercentage(ps) - ps[k].percentage + u.percentage
            else TotalPercentage(ps)
  {
    var r := UpdateParticipant(ps, ps[k].id, u);
    TotalAfterOneChange(ps, r, k);
  }

  /** How the page flags the total: nothing at exactly 100 %, red above, yellow below. */
  datatype PercentageWarning = NoWarning | YellowWarning | RedWarning

  function WarningFor(total: real): (w: PercentageWarning)
    ensures w.NoWarning? <==> total == 100.0
    ensures w.RedWarning? <==> total > 100.0
    ensures w.YellowWarning? <==> total < 100.0
  {
    if total == 100.0 then NoWarning
    else if total > 100.0 then RedWarning
    else YellowWarning
  }

  /** The page opens consistent: card ids 1..n, the shared total on every card,
      distinct partner ids adding up to 100 % and so no warning. */
  lemma InitialStateConsistent()
    ensures IdsSequential(InitialState().scenarios, ScenarioId)
    ensures TotalsFollowGlobal(InitialState())
    ensures DistinctIds(InitialState().participants)
    ensures TotalPercentage(InitialState().participants) == 100.0
    ensures WarningFor(TotalPercentage(InitialState().participants)).NoWarning?
  {
    var ps := InitialState().participants;
    assert ps[..1] == [ps[0]];
    assert ps[..1][..0] == [];
  }
}
