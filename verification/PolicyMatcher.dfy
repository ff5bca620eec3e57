/**
 Which alert policy applies to an event, and the cache of active policies per event type
 that the lookups go through.
 */
module PolicyMatcher {
  import opened Wrappers

  /** The three target lists: only membership and emptiness matter, a missing list is an empty one. */
  datatype Policy = Policy(id: nat, eventType: string, active: bool, facility: Option<nat>,
                           sensors: set<nat>, devices: set<nat>, geofences: set<nat>)

  datatype Trigger = Trigger(facility: Option<nat>, sensor: Option<nat>, device: Option<nat>, geofence: Option<nat>)

  predicate Constrained(p: Policy) {
    p.sensors != {} || p.devices != {} || p.geofences != {}
  }

  predicate Targets(p: Policy, t: Trigger) {
    || (t.sensor.Some? && t.sensor.value in p.sensors)
    || (t.device.Some? && t.device.value in p.devices)
    || (t.geofence.Some? && t.geofence.value in p.geofences)
  }

  function ScoreMatch(p: Policy, t: Trigger): Option<nat> {
    if p.facility.Some? && p.facility != t.facility then None
    else
      var facilityScore: nat := if p.facility.None? then 0 else 2;
      if !Constrained(p) then Some(facilityScore)
      else if Targets(p, t) then Some(facilityScore + 1)
      else None
  }

  // ---------------------------------------------------------------------------
  // What the documentation promises, without scores
  // ---------------------------------------------------------------------------

  /** The policy names the sensor, device or geofence that triggered, in the list of its kind. */
  predicate Names(p: Policy, t: Trigger) {
    || (exists id <- p.sensors :: t.sensor == Some(id))
    || (exists id <- p.devices :: t.device == Some(id))
    || (exists id <- p.geofences :: t.geofence == Some(id))
  }

  /** A policy without lists applies to every asset. */
  predicate Applies(p: Policy, t: Trigger) {
    (p.facility == None || p.facility == t.facility) && (p.sensors + p.devices + p.geofences == {} || Names(p, t))
  }

  /** A policy of one facility is more specific than a company-wide one; then one with target assets is. */
  predicate MoreSpecific(p: Policy, q: Policy) {
    || (p.facility != None && q.facility == None)
    || ((p.facility == None <==> q.facility == None)
        && p.sensors + p.devices + p.geofences != {} && q.sensors + q.devices + q.geofences == {})
  }

  lemma ScoreMeansSpecificity(p: Policy, q: Policy, t: Trigger)
    ensures ScoreMatch(p, t).Some? <==> Applies(p, t)
    ensures Applies(p, t) && Applies(q, t) ==> (ScoreMatch(p, t).value > ScoreMatch(q, t).value <==> MoreSpecific(p, q))
  {
    ConstrainedIff(p);
    ConstrainedIff(q);
  }

  lemma ConstrainedIff(p: Policy)
    ensures Constrained(p) <==> p.sensors + p.devices + p.geofences != {}
  {
    if Constrained(p) {
      var id :| id in p.sensors || id in p.devices || id in p.geofences;
      assert id in p.sensors + p.devices + p.geofences;
    }
  }

  /** Position `i` holds the first of the most specific policies that apply. */
  ghost predicate FirstMostSpecific(candidates: seq<Policy>, t: Trigger, i: nat) {
    && i < |candidates|
    && Applies(candidates[i], t)
    && forall j | 0 <= j < |candidates| && Applies(candidates[j], t) ::
         && !MoreSpecific(candidates[j], candidates[i])
         && (j < i ==> MoreSpecific(candidates[i], candidates[j]))
  }

  // ---------------------------------------------------------------------------
  // Scoring, sorting, taking the first
  // ---------------------------------------------------------------------------

  datatype Scored = Scored(score: nat, policy: Policy)

  function ScoreAll(candidates: seq<Policy>, t: Trigger): seq<Scored> {
    if candidates == [] then []
    else
      var rest := ScoreAll(candidates[..|candidates| - 1], t);
      var last := candidates[|candidates| - 1];
      var score := ScoreMatch(last, t);
      if score.Some? then rest + [Scored(score.value, last)] else rest
  }

  function InsertAfterEquals(sorted: seq<Scored>, x: Scored): (r: seq<Scored>)
    ensures |r| == |sorted| + 1
    ensures r[0] == if sorted == [] || x.score > sorted[0].score then x else sorted[0]
  {
    if sorted == [] then [x]
    else if x.score > sorted[0].score then [x] + sorted
    else [sorted[0]] + InsertAfterEquals(sorted[1..], x)
  }

  /** Python's stable sort, highest score first. */
  function SortDescending(xs: seq<Scored>): (r: seq<Scored>)
    ensures |r| == |xs|
  {
    if xs == [] then [] else InsertAfterEquals(SortDescending(xs[..|xs| - 1]), xs[|xs| - 1])
  }

  ghost predicate Descending(xs: seq<Scored>) {
    forall j, k | 0 <= j < k < |xs| :: xs[j].score >= xs[k].score
  }

  function OfScore(xs: seq<Scored>, score: nat): seq<Scored> {
    if xs == [] then []
    else (if xs[0].score == score then [xs[0]] else []) + OfScore(xs[1..], score)
  }

  lemma OfScoreCons(x: Scored, rest: seq<Scored>, score: nat)
    ensures OfScore([x] + rest, score) == (if x.score == score then [x] else []) + OfScore(rest, score)
  {
  }

  lemma {:induction false} OfScoreAppend(xs: seq<Scored>, ys: seq<Scored>, score: nat)
    ensures OfScore(xs + ys, score) == OfScore(xs, score) + OfScore(ys, score)
  {
    if xs == [] {
      assert xs + ys == ys;
    } else {
      OfScoreAppend(xs[1..], ys, score);
      assert xs + ys == [xs[0]] + (xs[1..] + ys);
      OfScoreCons(xs[0], xs[1..] + ys, score);
    }
  }

  lemma {:induction false} OfScoreBelow(xs: seq<Scored>, score: nat)
    requires forall x <- xs :: x.score < score
    ensures OfScore(xs, score) == []
  {
    if xs != [] { OfScoreBelow(xs[1..], score); }
  }

  lemma {:induction false} InsertDescends(sorted: seq<Scored>, x: Scored)
    requires Descending(sorted)
    ensures var r := InsertAfterEquals(sorted, x); Descending(r) && forall y <- r :: y == x || y in sorted
  {
    if sorted != [] && x.score <= sorted[0].score {
      InsertDescends(sorted[1..], x);
    }
  }

  lemma {:induction false} InsertKeepsOrder(sorted: seq<Scored>, x: Scored, score: nat)
    requires Descending(sorted)
    ensures OfScore(InsertAfterEquals(sorted, x), score) == OfScore(sorted, score) + OfScore([x], score)
  {
    if sorted == [] {
    } else if x.score > sorted[0].score {
      OfScoreCons(x, sorted, score);
      OfScoreCons(x, [], score);
      if score == x.score { OfScoreBelow(sorted, score); }
    } else {
      InsertKeepsOrder(sorted[1..], x, score);
      OfScoreCons(sorted[0], InsertAfterEquals(sorted[1..], x), score);
    }
  }

  /** The sort orders by score and keeps the order of, and all of, the elements of each score. */
  lemma {:induction false} SortIsStable(xs: seq<Scored>, score: nat)
    ensures Descending(SortDescending(xs)) && OfScore(SortDescending(xs), score) == OfScore(xs, score)
  {
    if xs != [] {
      var init, last := xs[..|xs| - 1], xs[|xs| - 1];
      SortIsStable(init, score);
      InsertDescends(SortDescending(init), last);
      InsertKeepsOrder(SortDescending(init), last, score);
      OfScoreAppend(init, [last], score);
      assert init + [last] == xs;
    }
  }

  function Match(candidates: seq<Policy>, t: Trigger): Option<Policy> {
    var scored := SortDescending(ScoreAll(candidates, t));
    if scored == [] then None else Some(scored[0].policy)
  }

  /** Where the first of the highest scores stands. */
  function Best(candidates: seq<Policy>, t: Trigger): (i: Option<nat>)
    ensures i.Some? ==> i.value < |candidates| && ScoreMatch(candidates[i.value], t).Some?
  {
    if candidates == [] then None
    else
      var last := |candidates| - 1;
      var i := Best(candidates[..last], t);
      var score := ScoreMatch(candidates[last], t);
      if score.Some? && (i.None? || score.value > ScoreMatch(candidates[i.value], t).value) then Some(last) else i
  }

  lemma {:induction false} SortPutsBestFirst(candidates: seq<Policy>, t: Trigger)
    ensures var i, sorted := Best(candidates, t), SortDescending(ScoreAll(candidates, t));
            if i.None? then sorted == []
            else sorted != [] && sorted[0] == Scored(ScoreMatch(candidates[i.value], t).value, candidates[i.value])
  {
    if candidates != [] {
      var last := |candidates| - 1;
      SortPutsBestFirst(candidates[..last], t);
      var score := ScoreMatch(candidates[last], t);
      if score.Some? {
        var rest := ScoreAll(candidates[..last], t);
        assert (rest + [Scored(score.value, candidates[last])])[..|rest|] == rest;
      }
    }
  }

  lemma {:induction false} BestIsFirstHighest(candidates: seq<Policy>, t: Trigger, j: nat)
    requires j < |candidates| && ScoreMatch(candidates[j], t).Some?
    ensures var i := Best(candidates, t);
            && i.Some?
            && ScoreMatch(candidates[j], t).value <= ScoreMatch(candidates[i.value], t).value
            && (j < i.value ==> ScoreMatch(candidates[j], t).value < ScoreMatch(candidates[i.value], t).value)
  {
    var last := |candidates| - 1;
    if j < last { BestIsFirstHighest(candidates[..last], t, j); }
  }

  /** The first of the most specific policies that apply, and None iff none applies. */
  lemma MatchIsFirstMostSpecific(candidates: seq<Policy>, t: Trigger)
    ensures match Match(candidates, t)
            case None => forall p <- candidates :: !Applies(p, t)
            case Some(p) => exists i: nat :: FirstMostSpecific(candidates, t, i) && p == candidates[i]
  {
    SortPutsBestFirst(candidates, t);
    var best := Best(candidates, t);
    forall j | 0 <= j < |candidates| && Applies(candidates[j], t)
      ensures best.Some?
      ensures !MoreSpecific(candidates[j], candidates[best.value])
      ensures j < best.value ==> MoreSpecific(candidates[best.value], candidates[j])
    {
      ScoreMeansSpecificity(candidates[j], candidates[j], t);
      BestIsFirstHighest(candidates, t, j);
      ScoreMeansSpecificity(candidates[j], candidates[best.value], t);
      ScoreMeansSpecificity(candidates[best.value], candidates[j], t);
    }
    if best.Some? {
      assert FirstMostSpecific(candidates, t, best.value);
    }
  }

  /** A policy on its own is the answer iff it applies. */
  lemma OnlyPolicyAnswersIff(p: Policy, t: Trigger)
    ensures Match([p], t) == Some(p) <==>
            && (p.facility == None || p.facility == t.facility)
            && (|| (p.sensors == {} && p.devices == {} && p.geofences == {})
                || (t.sensor.Some? && t.sensor.value in p.sensors)
                || (t.device.Some? && t.device.value in p.devices)
                || (t.geofence.Some? && t.geofence.value in p.geofences))
    ensures Match([p], t) in {None, Some(p)}
  {
    MatchIsFirstMostSpecific([p], t);
    assert [p][0] in [p];
    ConstrainedIff(p);
    if t.sensor.Some? && t.sensor.value in p.sensors { assert Names(p, t); }
    if t.device.Some? && t.device.value in p.devices { assert Names(p, t); }
    if t.geofence.Some? && t.geofence.value in p.geofences { assert Names(p, t); }
  }

  /** A policy for assets of one kind never answers a trigger of another. */
  lemma OtherKindIsNotAnswered(candidates: seq<Policy>, t: Trigger, p: Policy)
    requires Match(candidates, t) == Some(p)
    ensures t.sensor.None? && p.sensors != {} ==> p.devices + p.geofences != {}
    ensures t.device.None? && p.devices != {} ==> p.sensors + p.geofences != {}
    ensures t.geofence.None? && p.geofences != {} ==> p.sensors + p.devices != {}
  {
    MatchIsFirstMostSpecific(candidates, t);
    assert Applies(p, t);
    if id :| id in p.sensors { assert id in p.sensors + p.devices + p.geofences; }
    if id :| id in p.devices { assert id in p.sensors + p.devices + p.geofences; }
    if id :| id in p.geofences { assert id in p.sensors + p.devices + p.geofences; }
  }

  // ---------------------------------------------------------------------------
  // The cache
  // ---------------------------------------------------------------------------

  /** The policy table in primary-key order, and the cached list per event type. */
  datatype State = State(rows: seq<Policy>, cache: map<string, seq<Policy>>)

  const NO_POLICIES := State([], map[])

  /** The active policies of a type. */
  function Query(rows: seq<Policy>, eventType: string): seq<Policy> {
    if rows == [] then []
    else
      var init, last := rows[..|rows| - 1], rows[|rows| - 1];
      if last.active && last.eventType == eventType then Query(init, eventType) + [last] else Query(init, eventType)
  }

  function Cached(s: State, eventType: string): seq<Policy> {
    if eventType in s.cache then s.cache[eventType] else Query(s.rows, eventType)
  }

  function Invalidate(s: State, eventType: string): State {
    s.(cache := s.cache - {eventType})
  }

  /** Where the row with this id stands; `|rows|` when there is none. */
  function Position(rows: seq<Policy>, id: nat): (i: nat)
    ensures i <= |rows| && (i < |rows| ==> rows[i].id == id) && forall k | 0 <= k < i :: rows[k].id != id
  {
    if rows == [] then 0 else if rows[0].id == id then 0 else 1 + Position(rows[1..], id)
  }

  function Edited(rows: seq<Policy>, p: Policy): seq<Policy> {
    var i := Position(rows, p.id);
    if i < |rows| then rows[..i] + [p] + rows[i + 1..] else rows + [p]
  }

  /** Creates or overwrites the row, then drops the cached list of the type the policy has now. */
  function Save(s: State, p: Policy): State {
    Invalidate(s.(rows := Edited(s.rows, p)), p.eventType)
  }

  function Delete(s: State, id: nat): State {
    var i := Position(s.rows, id);
    if i == |s.rows| then s
    else Invalidate(s.(rows := s.rows[..i] + s.rows[i + 1..]), s.rows[i].eventType)
  }

  /** `Expire` is the end of a cached list's five minutes: it may come at any time. */
  datatype Step =
    | Lookup(eventType: string)
    | SavePolicy(policy: Policy)
    | DeletePolicy(id: nat)
    | Expire(eventType: string)

  function Next(s: State, step: Step): State {
    match step
    case Lookup(eventType) => s.(cache := s.cache[eventType := Cached(s, eventType)])
    case SavePolicy(p) => Save(s, p)
    case DeletePolicy(id) => Delete(s, id)
    case Expire(eventType) => Invalidate(s, eventType)
  }

  function Run(steps: seq<Step>): State {
    if steps == [] then NO_POLICIES else Next(Run(steps[..|steps| - 1]), steps[|steps| - 1])
  }

  /** Every cached list is what the database would answer now. */
  ghost predicate Coherent(s: State) {
    forall eventType <- s.cache :: s.cache[eventType] == Query(s.rows, eventType)
  }

  /** The edit moves an active policy away from an event type whose list is cached. */
  predicate LeavesStale(s: State, p: Policy) {
    var i := Position(s.rows, p.id);
    i < |s.rows| && s.rows[i].active && s.rows[i].eventType != p.eventType && s.rows[i].eventType in s.cache
  }

  lemma {:induction false} QueryAppend(a: seq<Policy>, b: seq<Policy>, eventType: string)
    ensures Query(a + b, eventType) == Query(a, eventType) + Query(b, eventType)
  {
    if b == [] {
      assert a + b == a;
    } else {
      var init := b[..|b| - 1];
      QueryAppend(a, init, eventType);
      assert (a + b)[..|a + b| - 1] == a + init;
    }
  }

  /** The query answers the active rows of the type and no others. */
  lemma {:induction false} QuerySelects(rows: seq<Policy>, eventType: string, p: Policy)
    ensures p in Query(rows, eventType) <==> p in rows && p.active && p.eventType == eventType
  {
    if rows != [] {
      var init, last := rows[..|rows| - 1], rows[|rows| - 1];
      QuerySelects(init, eventType, p);
      assert rows == init + [last];
    }
  }

  /** In table order and each row once; of another type, or inactive, a row does not matter. */
  lemma QueryAround(a: seq<Policy>, p: Policy, b: seq<Policy>, eventType: string)
    ensures Query(a + [p] + b, eventType) ==
            Query(a, eventType) + (if p.active && p.eventType == eventType then [p] else []) + Query(b, eventType)
    ensures Query(a + b, eventType) == Query(a, eventType) + Query(b, eventType)
  {
    QueryAppend(a + [p], b, eventType);
    QueryAppend(a, [p], eventType);
    QueryAppend(a, b, eventType);
    assert Query([p], eventType) == (if p.active && p.eventType == eventType then [p] else []) by {
      assert [p][..0] == [];
    }
  }

  ghost predicate UniqueIds(rows: seq<Policy>) {
    forall j, k | 0 <= j < |rows| && 0 <= k < |rows| && rows[j].id == rows[k].id :: j == k
  }

  lemma EditIsUpdate(rows: seq<Policy>, p: Policy)
    ensures var i := Position(rows, p.id); Edited(rows, p) == if i < |rows| then rows[i := p] else rows + [p]
  {
  }

  lemma PositionIff(rows: seq<Policy>, id: nat)
    requires UniqueIds(rows)
    ensures Position(rows, id) < |rows| <==> exists q <- rows :: q.id == id
    ensures forall k | 0 <= k < |rows| :: rows[k].id == id <==> k == Position(rows, id)
  {
    if q :| q in rows && q.id == id {
      var k :| 0 <= k < |rows| && rows[k] == q;
    }
  }

  /** A save leaves the other rows where they are and puts the policy in its own place, or at the end. */
  lemma SaveEditsOneRow(s: State, p: Policy)
    requires UniqueIds(s.rows)
    ensures var rows := Save(s, p).rows;
            && |s.rows| <= |rows|
            && (forall k | 0 <= k < |s.rows| :: rows[k] == if s.rows[k].id == p.id then p else s.rows[k])
            && (if exists q <- s.rows :: q.id == p.id then |rows| == |s.rows| else rows == s.rows + [p])
    ensures Save(s, p).cache == map eventType | eventType in s.cache && eventType != p.eventType :: s.cache[eventType]
  {
    EditIsUpdate(s.rows, p);
    PositionIff(s.rows, p.id);
  }

  /** A delete removes the row, and the cached list of its type. */
  lemma DeleteRemovesOneRow(s: State, id: nat, p: Policy)
    requires UniqueIds(s.rows)
    ensures p in Delete(s, id).rows <==> p in s.rows && p.id != id
    ensures p in s.rows && p.id == id ==>
              Delete(s, id).cache ==
              map eventType | eventType in s.cache && eventType != p.eventType :: s.cache[eventType]
    ensures (forall q <- s.rows :: q.id != id) ==> Delete(s, id) == s
  {
    var i := Position(s.rows, id);
    if i < |s.rows| {
      var a, b := s.rows[..i], s.rows[i + 1..];
      assert s.rows == a + [s.rows[i]] + b;
      forall q: Policy | q in a + b ensures q.id != id {
        if q in b {
          var k :| 0 <= k < |b| && b[k] == q;
          assert b[k] == s.rows[i + 1 + k];
        }
      }
    }
    if p in s.rows && p.id == id {
      var k :| 0 <= k < |s.rows| && s.rows[k] == p;
    }
  }

  /** Seen from a type other than the one it has now, an edit matters iff the old row was active and of that type. */
  lemma EditSeenFrom(rows: seq<Policy>, p: Policy, eventType: string)
    requires eventType != p.eventType
    ensures var i := Position(rows, p.id);
            Query(Edited(rows, p), eventType) == Query(rows, eventType) <==>
            !(i < |rows| && rows[i].active && rows[i].eventType == eventType)
  {
    var i := Position(rows, p.id);
    if i < |rows| {
      var a, b := rows[..i], rows[i + 1..];
      assert rows == a + [rows[i]] + b;
      QueryAround(a, rows[i], b, eventType);
      QueryAround(a, p, b, eventType);
    } else {
      QueryAround(rows, p, [], eventType);
      assert rows + [] == rows && rows + [p] + [] == rows + [p];
    }
  }

  /** An edit leaves the cache coherent unless it moves an active policy away from a cached type. */
  lemma SaveStaysCoherentIff(s: State, p: Policy)
    requires Coherent(s)
    ensures Coherent(Save(s, p)) <==> !LeavesStale(s, p)
  {
    var s' := Save(s, p);
    forall eventType <- s'.cache
      ensures var i := Position(s.rows, p.id);
              s'.cache[eventType] == Query(s'.rows, eventType) <==>
              !(i < |s.rows| && s.rows[i].active && s.rows[i].eventType == eventType)
    {
      EditSeenFrom(s.rows, p, eventType);
    }
    if LeavesStale(s, p) {
      assert s.rows[Position(s.rows, p.id)].eventType in s'.cache;
    }
  }

  lemma DeleteStaysCoherent(s: State, id: nat)
    requires Coherent(s)
    ensures Coherent(Delete(s, id))
  {
    var i := Position(s.rows, id);
    if i < |s.rows| {
      var a, b := s.rows[..i], s.rows[i + 1..];
      assert s.rows == a + [s.rows[i]] + b;
      forall eventType <- Delete(s, id).cache ensures Query(a + b, eventType) == Query(s.rows, eventType) {
        QueryAround(a, s.rows[i], b, eventType);
      }
    }
  }

  /** No save in the run moves an active policy away from a cached type; saves that keep the type never do. */
  ghost predicate NoMoves(steps: seq<Step>) {
    steps != [] ==>
      var init, last := steps[..|steps| - 1], steps[|steps| - 1];
      NoMoves(init) && (last.SavePolicy? ==> !LeavesStale(Run(init), last.policy))
  }

  lemma {:induction false} RunIsCoherent(steps: seq<Step>)
    requires NoMoves(steps)
    ensures Coherent(Run(steps))
  {
    if steps != [] {
      var init, last := steps[..|steps| - 1], steps[|steps| - 1];
      RunIsCoherent(init);
      match last
      case Lookup(_) =>
      case SavePolicy(p) => SaveStaysCoherentIff(Run(init), p);
      case DeletePolicy(id) => DeleteStaysCoherent(Run(init), id);
      case Expire(_) =>
    }
  }

  /** In any interleaving of lookups, edits, deletes and expiries without such a move, the cache changes no answer. */
  lemma LookupEqualsDirectQuery(steps: seq<Step>, eventType: string, t: Trigger)
    requires NoMoves(steps)
    ensures Match(Cached(Run(steps), eventType), t) == Match(Query(Run(steps).rows, eventType), t)
  {
    RunIsCoherent(steps);
  }

  const LEAK_POLICY := Policy(1, "gas_threshold", true, None, {}, {}, {})
  const MOVED_POLICY := LEAK_POLICY.(eventType := "power_overload")
  const MOVE := [SavePolicy(LEAK_POLICY), Lookup("gas_threshold"), SavePolicy(MOVED_POLICY)]

  lemma AfterMove()
    ensures Run(MOVE) == State([MOVED_POLICY], map["gas_threshold" := [LEAK_POLICY]])
    ensures Query([MOVED_POLICY], "gas_threshold") == []
  {
    assert MOVE[..2] == [SavePolicy(LEAK_POLICY), Lookup("gas_threshold")];
    assert MOVE[..2][..1] == [SavePolicy(LEAK_POLICY)];
    assert Run([SavePolicy(LEAK_POLICY)]) == State([LEAK_POLICY], map[]) by {
      assert [SavePolicy(LEAK_POLICY)][..0] == [];
    }
    assert Query([LEAK_POLICY], "gas_threshold") == [LEAK_POLICY] by { assert [LEAK_POLICY][..0] == []; }
    assert Query([MOVED_POLICY], "gas_threshold") == [] by { assert [MOVED_POLICY][..0] == []; }
    assert Run(MOVE[..2]) == State([LEAK_POLICY], map["gas_threshold" := [LEAK_POLICY]]);
  }

  /** After a move the old type still answers with the policy that has left it. */
  lemma MovedPolicyIsStillMatched(t: Trigger)
    ensures Match(Cached(Run(MOVE), "gas_threshold"), t) == Some(LEAK_POLICY)
    ensures Match(Query(Run(MOVE).rows, "gas_threshold"), t) == None
  {
    AfterMove();
    SortPutsBestFirst([LEAK_POLICY], t);
    SortPutsBestFirst([], t);
    assert ScoreMatch(LEAK_POLICY, t) == Some(0);
    assert Best([LEAK_POLICY], t) == Some(0) by { assert [LEAK_POLICY][..0] == []; }
  }

  class PolicyService {
    var rows: seq<Policy>
    var cache: map<string, seq<Policy>>

    ghost function Model(): State
      reads this
    {
      State(rows, cache)
    }

    constructor ()
      ensures Model() == NO_POLICIES
    {
      rows, cache := [], map[];
    }

    method GetCachedPolicies(eventType: string) returns (policies: seq<Policy>)
      modifies this`cache
      ensures policies == Cached(old(Model()), eventType)
      ensures Model() == Next(old(Model()), Lookup(eventType))
    {
      if eventType in cache {
        policies := cache[eventType];
        assert cache[eventType := policies] == cache;
        return;
      }
      policies := Query(rows, eventType);
      cache := cache[eventType := policies];
    }

    method InvalidatePolicyCache(eventType: string)
      modifies this`cache
      ensures Model() == Next(old(Model()), Expire(eventType))
    {
      cache := cache - {eventType};
    }

    /** The saving signal and the explicit call after it drop the same list. */
    method SavePolicyRow(p: Policy)
      modifies this
      ensures Model() == Next(old(Model()), SavePolicy(p))
    {
      var i := Position(rows, p.id);
      if i < |rows| {
        rows := rows[..i] + [p] + rows[i + 1..];
      } else {
        rows := rows + [p];
      }
      InvalidatePolicyCache(p.eventType);
      InvalidatePolicyCache(p.eventType);
      assert cache == old(cache) - {p.eventType};
    }

    method DeletePolicyRow(id: nat)
      modifies this
      ensures Model() == Next(old(Model()), DeletePolicy(id))
    {
      var i := Position(rows, id);
      if i < |rows| {
        var eventType := rows[i].eventType;
        rows := rows[..i] + rows[i + 1..];
        InvalidatePolicyCache(eventType);
      }
    }

    method MatchPolicy(eventType: string, t: Trigger) returns (policy: Option<Policy>)
      modifies this`cache
      ensures policy == Match(Cached(old(Model()), eventType), t)
      ensures var candidates := Cached(old(Model()), eventType);
              match policy
              case None => forall p <- candidates :: !Applies(p, t)
              case Some(p) => exists i: nat :: FirstMostSpecific(candidates, t, i) && p == candidates[i]
      ensures Model() == Next(old(Model()), Lookup(eventType))
    {
      var candidates := GetCachedPolicies(eventType);
      MatchIsFirstMostSpecific(candidates, t);
      if candidates == [] {
        return None;
      }
      var scored: seq<Scored> := [];
      for i := 0 to |candidates|
        invariant scored == ScoreAll(candidates[..i], t)
      {
        assert candidates[..i + 1][..i] == candidates[..i];
        var score := ScoreMatch(candidates[i], t);
        if score.Some? {
          scored := scored + [Scored(score.value, candidates[i])];
        }
      }
      assert candidates[..|candidates|] == candidates;
      if scored == [] {
        return None;
      }
      scored := SortDescending(scored);
      return Some(scored[0].policy);
    }
  }
}
