/**
 * The farm: a map from panel id to panel, the registry of every id ever
 * issued, id generation, the replacement sub-state machine and the
 * farm-wide dirt events.
 *
 * The random draws are arguments: an id candidate is the pair of index
 * lists `random.choices` picks from A-Z and 0-9, a farm operation that
 * generates ids takes one stream of such candidates, the scheduling draw is
 * a `random()` value and each farm-wide dirt draw a `gauss` value.
 */
module Farms {
  import opened Panels

  datatype Option<T> = None | Some(value: T)

  // ---------------------------------------------------------------------
  // Id format

  /** One drawn id: two indices into A-Z and six into 0-9. */
  datatype IdDraw = IdDraw(letters: seq<nat>, digits: seq<nat>)

  predicate ValidDraw(d: IdDraw)
  {
    |d.letters| == 2 && |d.digits| == 6 &&
    (forall i :: 0 <= i < 2 ==> d.letters[i] < 26) &&
    (forall i :: 0 <= i < 6 ==> d.digits[i] < 10)
  }

  type CandidateDraw = d: IdDraw | ValidDraw(d) witness IdDraw([0, 0], [0, 0, 0, 0, 0, 0])

  predicate IsUpper(c: char) { 'A' <= c <= 'Z' }
  predicate IsDigit(c: char) { '0' <= c <= '9' }

  /** Two upper-case ASCII letters followed by six decimal digits. */
  predicate WellFormedId(s: string)
  {
    |s| == 8 && IsUpper(s[0]) && IsUpper(s[1]) && forall i :: 2 <= i < 8 ==> IsDigit(s[i])
  }

  /** The id a candidate draw spells out. */
  function IdFromDraw(d: CandidateDraw): (id: string)
    ensures WellFormedId(id)
  {
    seq(2, i requires 0 <= i < 2 => ('A' as int + d.letters[i]) as char) +
    seq(6, i requires 0 <= i < 6 => ('0' as int + d.digits[i]) as char)
  }

  /** The draw that spells out a well-formed id. */
  function DrawOfId(id: string): (d: CandidateDraw)
    requires WellFormedId(id)
    ensures IdFromDraw(d) == id
  {
    var d := IdDraw(seq(2, i requires 0 <= i < 2 => (id[i] as int - 'A' as int) as nat),
                    seq(6, i requires 0 <= i < 6 => (id[2 + i] as int - '0' as int) as nat));
    assert IdFromDraw(d) == id by {
      assert forall i :: 0 <= i < 8 ==> IdFromDraw(d)[i] == id[i];
    }
    d
  }

  /** Reading the draw back from an id recovers it. */
  lemma DrawRoundTrip(d: CandidateDraw)
    ensures DrawOfId(IdFromDraw(d)) == d
  {
    var e := DrawOfId(IdFromDraw(d));
    assert e.letters == d.letters;
    assert e.digits == d.digits;
  }

  /** Distinct draws spell distinct ids. */
  lemma IdFromDrawInjective(d1: CandidateDraw, d2: CandidateDraw)
    requires d1 != d2
    ensures IdFromDraw(d1) != IdFromDraw(d2)
  {
    DrawRoundTrip(d1);
    DrawRoundTrip(d2);
  }

  // ---------------------------------------------------------------------
  // Id generation

  /** A generated id and the candidates left after it. */
  datatype Drawn = Drawn(id: string, rest: seq<CandidateDraw>)

  /**
   * The outcome of the retry loop on the candidate `stream` against the
   * registered `ids`: the first candidate not yet registered, or None when
   * the stream runs out.
   */
  function FirstFresh(stream: seq<CandidateDraw>, ids: set<string>): (r: Option<Drawn>)
    ensures r.Some? ==> r.value.id !in ids && WellFormedId(r.value.id) && |r.value.rest| < |stream|
    decreases |stream|
  {
    if |stream| == 0 then
      None
    else if IdFromDraw(stream[0]) !in ids then
      Some(Drawn(IdFromDraw(stream[0]), stream[1..]))
    else
      FirstFresh(stream[1..], ids)
  }

  /** The retry loop runs out exactly when every candidate is already registered. */
  lemma {:induction false} FirstFreshNoneIffExhausted(stream: seq<CandidateDraw>, ids: set<string>)
    ensures FirstFresh(stream, ids).None? <==> forall i :: 0 <= i < |stream| ==> IdFromDraw(stream[i]) in ids
    decreases |stream|
  {
    if |stream| > 0 {
      FirstFreshNoneIffExhausted(stream[1..], ids);
      if IdFromDraw(stream[0]) in ids {
        forall i | 0 < i < |stream| ensures stream[i] == stream[1..][i - 1] {
        }
      }
    }
  }

  /**
   * The id generated is the first candidate that is not registered, and
   * generation resumes right after it.
   */
  lemma {:induction false} FirstFreshIsFirst(stream: seq<CandidateDraw>, ids: set<string>)
    requires FirstFresh(stream, ids).Some?
    ensures exists i :: 0 <= i < |stream| &&
              FirstFresh(stream, ids).value == Drawn(IdFromDraw(stream[i]), stream[i + 1..]) &&
              forall j :: 0 <= j < i ==> IdFromDraw(stream[j]) in ids
  {
    var i := FirstFreshIndex(stream, ids);
  }

  /** The position of the candidate FirstFresh picks, found by induction on the stream. */
  lemma {:induction false} FirstFreshIndex(stream: seq<CandidateDraw>, ids: set<string>) returns (i: nat)
    requires FirstFresh(stream, ids).Some?
    ensures i < |stream| && FirstFresh(stream, ids).value == Drawn(IdFromDraw(stream[i]), stream[i + 1..])
    ensures forall j :: 0 <= j < i ==> IdFromDraw(stream[j]) in ids
    decreases |stream|
  {
    if IdFromDraw(stream[0]) in ids {
      var t := FirstFreshIndex(stream[1..], ids);
      i := t + 1;
      assert stream[1..][t] == stream[i];
      assert stream[1..][t + 1..] == stream[i + 1..];
      forall j | 0 <= j < i ensures IdFromDraw(stream[j]) in ids {
        if j > 0 {
          assert stream[j] == stream[1..][j - 1];
        }
      }
    } else {
      i := 0;
    }
  }

  /**
   * The ids that `n` generations in a row produce from `stream`, each
   * registered before the next is drawn; None when the stream runs out.
   */
  function GenerateIds(stream: seq<CandidateDraw>, ids: set<string>, n: nat): (r: Option<seq<string>>)
    ensures r.Some? ==> |r.value| == n
    decreases n
  {
    if n == 0 then
      Some([])
    else
      match FirstFresh(stream, ids)
      case None => None
      case Some(drawn) =>
        match GenerateIds(drawn.rest, ids + {drawn.id}, n - 1)
        case None => None
        case Some(more) => Some([drawn.id] + more)
  }

  /** A successful run yields `n` well-formed ids, none registered beforehand and no two alike. */
  lemma {:induction false} GenerateIdsFresh(stream: seq<CandidateDraw>, ids: set<string>, n: nat)
    requires GenerateIds(stream, ids, n).Some?
    ensures forall i :: 0 <= i < n ==>
              GenerateIds(stream, ids, n).value[i] !in ids && WellFormedId(GenerateIds(stream, ids, n).value[i])
    ensures forall i, j :: 0 <= i < j < n ==> GenerateIds(stream, ids, n).value[i] != GenerateIds(stream, ids, n).value[j]
    decreases n
  {
    if n > 0 {
      var drawn := FirstFresh(stream, ids).value;
      var xs := GenerateIds(stream, ids, n).value;
      GenerateIdsFresh(drawn.rest, ids + {drawn.id}, n - 1);
      var more := GenerateIds(drawn.rest, ids + {drawn.id}, n - 1).value;
      assert xs == [drawn.id] + more;
      forall i | 0 <= i < n ensures xs[i] !in ids && WellFormedId(xs[i]) {
        if i > 0 { assert xs[i] == more[i - 1]; }
      }
      forall i, j | 0 <= i < j < n ensures xs[i] != xs[j] {
        assert xs[j] == more[j - 1];
        if i > 0 { assert xs[i] == more[i - 1]; }
      }
    }
  }

  /** One generation peeled off the front of a successful run of `n`. */
  lemma GenerateIdsStep(stream: seq<CandidateDraw>, ids: set<string>, n: nat, xs: seq<string>)
    requires n > 0 && GenerateIds(stream, ids, n) == Some(xs)
    ensures FirstFresh(stream, ids).Some?
    ensures xs[0] == FirstFresh(stream, ids).value.id
    ensures GenerateIds(FirstFresh(stream, ids).value.rest, ids + {xs[0]}, n - 1) == Some(xs[1..])
  {
  }

  /** The set of ids listed in `xs`. */
  function Elements(xs: seq<string>): set<string>
  {
    if xs == [] then {} else {xs[0]} + Elements(xs[1..])
  }

  lemma {:induction false} ElementsAreListed(xs: seq<string>)
    ensures forall x :: x in Elements(xs) <==> x in xs
  {
    if xs != [] {
      ElementsAreListed(xs[1..]);
      assert xs == [xs[0]] + xs[1..];
    }
  }

  /** The ids of a successful run of `n` generations form a set of `n` ids outside `ids`. */
  lemma GeneratedIdSet(stream: seq<CandidateDraw>, ids: set<string>, n: nat)
    requires GenerateIds(stream, ids, n).Some?
    ensures |Elements(GenerateIds(stream, ids, n).value)| == n
    ensures Elements(GenerateIds(stream, ids, n).value) !! ids
  {
    var xs := GenerateIds(stream, ids, n).value;
    GenerateIdsFresh(stream, ids, n);
    DistinctCardinality(xs);
    ElementsAreListed(xs);
  }

  /** A list without repetitions has as many elements as its set. */
  lemma {:induction false} DistinctCardinality(xs: seq<string>)
    requires forall i, j :: 0 <= i < j < |xs| ==> xs[i] != xs[j]
    ensures |Elements(xs)| == |xs|
  {
    if xs != [] {
      DistinctCardinality(xs[1..]);
      ElementsAreListed(xs[1..]);
      assert xs[0] !in xs[1..];
    }
  }


  // ---------------------------------------------------------------------
  // Replacement scheduling

  function MaxInt(a: int, b: int): int { if a <= b then b else a }

  /**
   * The counter `start_replacement` leaves for a panel whose counter is
   * `days`, with scheduling draw `chance`.
   */
  function ScheduledDays(days: int, replacementDays: int, chance: real): (r: int)
    ensures days != -1 ==> r == days
    ensures days == -1 && replacementDays >= 0 ==> (r == -1 <==> 0.04 <= chance <= 0.65)
    ensures days == -1 && replacementDays >= 0 && r != -1 ==>
              0 <= r && replacementDays - 1 <= r <= replacementDays + 2
  {
    if days == -1 then
      if chance < 0.04 then MaxInt(replacementDays - 1, 0)
      else if 0.65 < chance < 0.85 then replacementDays + 1
      else if chance >= 0.85 then replacementDays + 2
      else days
    else
      days
  }

  /**
   * What `replace_if_needed` does to a panel with counter `days`: None
   * means the panel is replaced, otherwise the counter it is left with.
   */
  function NextCounter(days: int): (r: Option<int>)
    ensures r.None? <==> days == 0
    ensures days < 0 ==> r == Some(days)
    ensures days > 0 ==> r.Some? && 0 <= r.value < days
  {
    if days == 0 then None
    else if days > 0 then Some(days - 1)
    else Some(days)
  }

  /** Whether a panel with counter `days` is replaced within `calls` calls. */
  function ReplacedWithin(days: int, calls: nat): bool
    decreases calls
  {
    calls > 0 &&
    match NextCounter(days)
    case None => true
    case Some(next) => ReplacedWithin(next, calls - 1)
  }

  /** A panel scheduled at `n` days is replaced by exactly the (n+1)-th call. */
  lemma {:induction false} ScheduledPanelReplacedOnTime(n: nat)
    ensures ReplacedWithin(n, n + 1)
    ensures !ReplacedWithin(n, n)
  {
    if n > 0 {
      ScheduledPanelReplacedOnTime(n - 1);
    }
  }

  /** A panel that is not scheduled is never replaced, however often the farm checks. */
  lemma {:induction false} UnscheduledNeverReplaced(days: int, calls: nat)
    requires days < 0
    ensures !ReplacedWithin(days, calls)
  {
    if calls > 0 {
      UnscheduledNeverReplaced(days, calls - 1);
    }
  }

  // ---------------------------------------------------------------------
  // Farm-wide dirt

  /** A farm-wide dirt draw clamped to be non-negative. */
  function FarmDirt(draw: real): (acc: real)
    ensures acc >= 0.0 && acc >= draw
    ensures draw >= 0.0 ==> acc == draw
    ensures draw < 0.0 ==> acc == 0.0
  {
    Max(0.0, draw)
  }

  /**
   * A panel's cleanliness after one farm-wide dirt event per hour: in hour
   * `h` the farm draw is `draws[h]` and the panel's own Gaussian draw is
   * `variances[h]`.
   */
  function DirtOverHours(cleanliness: real, floor: real, draws: seq<real>, variances: seq<real>): (c: real)
    requires |draws| == |variances|
    ensures |draws| == 0 ==> c == cleanliness
    ensures |draws| > 0 ==> c >= floor
    decreases |draws|
  {
    if |draws| == 0 then
      cleanliness
    else
      var last := |draws| - 1;
      DirtAfter(DirtOverHours(cleanliness, floor, draws[..last], variances[..last]),
                floor, FarmDirt(draws[last]), variances[last])
  }

  /** The run over the first `h + 1` hours is one dirt event after the run over the first `h`. */
  lemma DirtOverHoursStep(cleanliness: real, floor: real, draws: seq<real>, variances: seq<real>, h: nat)
    requires |draws| == |variances| && h < |draws|
    ensures DirtOverHours(cleanliness, floor, draws[..h + 1], variances[..h + 1]) ==
            DirtAfter(DirtOverHours(cleanliness, floor, draws[..h], variances[..h]),
                      floor, FarmDirt(draws[h]), variances[h])
  {
    assert draws[..h + 1][..h] == draws[..h];
    assert variances[..h + 1][..h] == variances[..h];
  }

  /**
   * When each hour's loss fraction is non-negative, a run of dirt events
   * keeps a panel within [floor, its starting cleanliness].
   */
  lemma {:induction false} DirtOverHoursInRange(cleanliness: real, floor: real, draws: seq<real>, variances: seq<real>)
    requires |draws| == |variances|
    requires floor <= cleanliness
    requires forall h :: 0 <= h < |draws| ==> 0.0 <= FarmDirt(draws[h]) + variances[h]
    ensures floor <= DirtOverHours(cleanliness, floor, draws, variances) <= cleanliness
    decreases |draws|
  {
    if |draws| > 0 {
      var last := |draws| - 1;
      DirtOverHoursInRange(cleanliness, floor, draws[..last], variances[..last]);
    }
  }

  // ---------------------------------------------------------------------
  // The registry and the farm

  /**
   * What ReplaceIfNeeded saw at entry: the panels, their counters, the
   * ids due, the registry, and the ids it is to add.
   */
  datatype Round = Round(before: map<string, Panel>, days: map<string, int>, due: set<string>,
                         registered: set<string>, added: set<string>)

  /** Every panel in `m` is a panel just built from `cfg` under its own id. */
  ghost predicate AllNewFrom(m: map<string, Panel>, cfg: PanelConfig)
    reads m.Values
  {
    forall id {:trigger m[id]} :: id in m ==> m[id].IsNewFrom(id, cfg)
  }

  /**
   * The counters while ReplaceIfNeeded walks `at.before`: unvisited panels
   * keep their counter, visited ones that were not due have it moved on.
   */
  ghost predicate CountersReplaced(at: Round, keys: set<string>, c: map<string, int>)
  {
    (forall id :: id in keys && id in c && id in at.days ==> c[id] == at.days[id]) &&
    (forall id :: id in at.before && id in c && id !in keys && id !in at.due && id in at.days ==>
       NextCounter(at.days[id]) == Some(c[id]))
  }

  /** Moving on the counter of an unvisited panel that is not due keeps CountersReplaced. */
  lemma CountersStep(at: Round, keys: set<string>, c: map<string, int>, id: string)
    requires id in keys && id in c && id in at.days && id !in at.due
    requires c[id] != 0 && at.due == (set k | k in at.days && at.days[k] == 0)
    requires CountersReplaced(at, keys, c)
    ensures NextCounter(c[id]).Some?
    ensures CountersReplaced(at, keys - {id}, c[id := NextCounter(c[id]).value])
  {
  }

  /** Every panel of `ps` is stored under its own id, and every id is in `registered`. */
  ghost predicate Filed(ps: map<string, Panel>, registered: set<string>)
  {
    (forall id :: id in ps ==> ps[id].panelId == id) && ps.Keys <= registered
  }

  /** Retiring a due, unvisited panel keeps CountersReplaced, whatever the new panel's counter. */
  lemma CountersRetire(at: Round, keys: set<string>, c: map<string, int>, id: string, newId: string, v: int)
    requires RoundShape(at, keys) && id in at.due && newId !in at.before
    requires CountersReplaced(at, keys, c)
    ensures CountersReplaced(at, keys - {id}, (c - {id})[newId := v])
  {
  }

  /**
   * The fixed facts about a round: the counters and the due ids are those
   * of `at.before`, whose ids were all registered, and `keys` lie among them.
   */
  ghost predicate RoundShape(at: Round, keys: set<string>)
  {
    at.days.Keys == at.before.Keys && keys <= at.before.Keys && at.before.Keys <= at.registered &&
    at.due == (set id | id in at.days && at.days[id] == 0)
  }

  /**
   * The ids still to come: one for each due id in `keys`, generated from
   * `cursor` against the registry `reg`; with the ids already added to the
   * panel map `ps`, they are `at.added`, and the registry grew by exactly those.
   */
  ghost predicate Pending(at: Round, keys: set<string>, todo: seq<string>, cursor: seq<CandidateDraw>,
                          ps: map<string, Panel>, reg: set<string>)
  {
    |at.due * keys| == |todo| &&
    GenerateIds(cursor, reg, |todo|) == Some(todo) &&
    at.added == (ps.Keys - at.before.Keys) + Elements(todo) &&
    reg == at.registered + (ps.Keys - at.before.Keys)
  }

  /**
   * Which panels of `at.before` are still in `ps`: the unvisited ones and
   * the visited ones that were not due, each the same panel object.
   */
  ghost predicate Present(at: Round, keys: set<string>, ps: map<string, Panel>, reg: set<string>)
  {
    Filed(ps, reg) &&
    (forall id :: id in at.before ==> (id in ps <==> id in keys || id !in at.due)) &&
    (forall id :: id in at.before && id in ps ==> ps[id] == at.before[id])
  }

  /** Visiting an id that is not due leaves the pending ids as they are. */
  lemma PendingSkip(at: Round, keys: set<string>, todo: seq<string>, cursor: seq<CandidateDraw>,
                    ps: map<string, Panel>, reg: set<string>, id: string)
    requires Pending(at, keys, todo, cursor, ps, reg) && id !in at.due
    ensures Pending(at, keys - {id}, todo, cursor, ps, reg)
  {
    assert at.due * (keys - {id}) == at.due * keys;
  }

  /** Visiting an id that is not due, and keeping its panel, keeps Present. */
  lemma PresentSkip(at: Round, keys: set<string>, ps: map<string, Panel>, reg: set<string>, id: string)
    requires Present(at, keys, ps, reg) && id !in at.due
    ensures Present(at, keys - {id}, ps, reg)
  {
  }

  /**
   * Retiring the due id `id` for the first fresh id drawn from `cursor`
   * consumes the first pending id.
   */
  lemma PendingRetire(at: Round, keys: set<string>, todo: seq<string>, cursor: seq<CandidateDraw>,
                      rest: seq<CandidateDraw>, ps: map<string, Panel>, reg: set<string>,
                      id: string, p: Panel)
    requires RoundShape(at, keys) && Pending(at, keys, todo, cursor, ps, reg)
    requires id in keys && id in at.due && id in ps
    requires FirstFresh(cursor, reg) == Some(Drawn(p.panelId, rest))
    ensures |todo| > 0 && p.panelId == todo[0] && todo[0] !in at.before && todo[0] !in reg
    ensures Pending(at, keys - {id}, todo[1..], rest, (ps - {id})[todo[0] := p], reg + {todo[0]})
  {
    assert id in at.due * keys;
    GenerateIdsStep(cursor, reg, |todo|, todo);
    var x := todo[0];
    var m := |todo| - 1;
    assert GenerateIds(FirstFresh(cursor, reg).value.rest, reg + {x}, m) == Some(todo[1..]);
    assert FirstFresh(cursor, reg).value.rest == rest;
    var after := (ps - {id})[x := p];
    assert at.due * (keys - {id}) == at.due * keys - {id};
    assert after.Keys - at.before.Keys == (ps.Keys - at.before.Keys) + {x};
    assert Elements(todo) == {x} + Elements(todo[1..]);
  }

  /** Retiring the due id `id` for a panel under a new id `x` keeps Present. */
  lemma PresentRetire(at: Round, keys: set<string>, ps: map<string, Panel>, reg: set<string>,
                      id: string, x: string, p: Panel)
    requires Present(at, keys, ps, reg) && id in at.due && x !in at.before && p.panelId == x
    ensures Present(at, keys - {id}, (ps - {id})[x := p], reg + {x})
  {
  }

  /** In `after`, the map `before` with `x` put in the place of `id`, every other entry is as it was. */
  lemma SwappedEntry<V>(before: map<string, V>, after: map<string, V>, id: string, x: string, v: V)
    requires x !in before && after == (before - {id})[x := v]
    ensures forall k :: k in after && k !in before ==> after[k] == v
    ensures forall k :: k in after && k in before ==> after[k] == before[k]
  {
  }

  /** At the start of a round nothing is visited: Replacing holds of the panels found. */
  lemma ReplacingAtEntry(at: Round, todo: seq<string>, stream: seq<CandidateDraw>,
                         ps: map<string, Panel>, reg: set<string>)
    requires Filed(ps, reg) && at.before == ps && at.days.Keys == ps.Keys && at.registered == reg
    requires at.due == (set id | id in at.days && at.days[id] == 0)
    requires GenerateIds(stream, reg, |at.due|) == Some(todo) && at.added == Elements(todo)
    ensures RoundShape(at, ps.Keys) && Present(at, ps.Keys, ps, reg)
    ensures Pending(at, ps.Keys, todo, stream, ps, reg)
    ensures CountersReplaced(at, ps.Keys, at.days)
  {
    assert at.due * ps.Keys == at.due;
    assert ps.Keys - at.before.Keys == {};
  }

  /** Once every id is visited, as many ids were added as were retired, so the farm keeps its size. */
  lemma ReplacingAtExit(at: Round, ps: map<string, Panel>, reg: set<string>)
    requires RoundShape(at, {}) && Present(at, {}, ps, reg)
    requires at.added == ps.Keys - at.before.Keys
    requires |at.added| == |at.due| && at.added !! at.registered
    ensures |ps| == |at.before|
  {
    assert ps.Keys == (at.before.Keys - at.due) + at.added;
    SwapCount(at.before.Keys, at.due, at.added, ps.Keys);
  }

  /** Once every id is visited, the due ones are gone and the rest kept their panel with a counter one day on. */
  lemma SettledAtExit(at: Round, ps: map<string, Panel>, reg: set<string>, c: map<string, int>)
    requires RoundShape(at, {}) && Present(at, {}, ps, reg)
    requires CountersReplaced(at, {}, c) && c.Keys == ps.Keys && at.registered <= reg
    ensures forall id :: id in at.before && id in at.due ==> id !in ps && id in reg
    ensures forall id :: id in at.before && id !in at.due ==>
              id in ps && ps[id] == at.before[id] && NextCounter(at.days[id]) == Some(c[id])
  {
  }

  /** Taking some elements out of a set and putting as many new ones in keeps its size. */
  lemma SwapCount(start: set<string>, gone: set<string>, added: set<string>, now: set<string>)
    requires gone <= start && added !! start && |added| == |gone|
    requires now == (start - gone) + added
    ensures |now| == |start|
  {
    var kept := start - gone;
    assert start == kept + gone;
    assert |now| == |kept| + |added|;
  }

  /**
   * The constructor's progress: the ids in `todo` are still to come from
   * `cursor`, and together with the panels filed so far they make `all`;
   * the registry holds the ids it started with and the filed ones.
   */
  ghost predicate Built(start: set<string>, all: set<string>, todo: seq<string>, cursor: seq<CandidateDraw>,
                        ps: map<string, Panel>, reg: set<string>)
  {
    GenerateIds(cursor, reg, |todo|) == Some(todo) &&
    all == ps.Keys + Elements(todo) &&
    reg == start + ps.Keys
  }

  /** Filing the first pending id moves it from `todo` to the panels. */
  lemma BuiltStep(start: set<string>, all: set<string>, todo: seq<string>, rest: seq<CandidateDraw>,
                  ps: map<string, Panel>, reg: set<string>, p: Panel)
    requires |todo| > 0 && all == ps.Keys + Elements(todo) && reg == start + ps.Keys
    requires GenerateIds(rest, reg + {todo[0]}, |todo| - 1) == Some(todo[1..])
    ensures Built(start, all, todo[1..], rest, ps[todo[0] := p], reg + {todo[0]})
  {
    assert Elements(todo) == {todo[0]} + Elements(todo[1..]);
  }

  /** The set of every id ever issued, shared by all farms. */
  class IdRegistry {
    var ids: set<string>

    constructor ()
      ensures ids == {}
    {
      ids := {};
    }
  }

  class Farm {
    const numPanels: nat
    const replacementDays: int
    const panelConfig: PanelConfig
    const registry: IdRegistry
    var panels: map<string, Panel>

    /** Every panel is stored under its own id, and every id is registered. */
    ghost predicate Valid()
      reads this, registry
    {
      Filed(panels, registry.ids)
    }

    /** The ids whose panels are due for replacement. */
    ghost function Due(): set<string>
      reads this, panels.Values
    {
      set id | id in panels && panels[id].daysToReplace == 0
    }

    /** Populates the farm with `numPanels` panels built from the template. */
    constructor (numPanels: nat, replacementDays: int, panelConfig: PanelConfig,
                 registry: IdRegistry, stream: seq<CandidateDraw>)
      requires GenerateIds(stream, registry.ids, numPanels).Some?
      modifies registry
      ensures Valid()
      ensures this.numPanels == numPanels && this.replacementDays == replacementDays
      ensures this.panelConfig == panelConfig && this.registry == registry
      ensures |panels| == numPanels
      ensures panels.Keys == Elements(GenerateIds(stream, old(registry.ids), numPanels).value)
      ensures panels.Keys !! old(registry.ids)
      ensures registry.ids == old(registry.ids) + panels.Keys
      ensures forall id :: id in panels ==> fresh(panels[id]) && panels[id].IsNewFrom(id, panelConfig)
    {
      this.numPanels := numPanels;
      this.replacementDays := replacementDays;
      this.panelConfig := panelConfig;
      this.registry := registry;
      panels := map[];
      new;
      ghost var start := this.registry.ids;
      ghost var todo := GenerateIds(stream, start, numPanels).value;
      ghost var all := Elements(todo);
      GeneratedIdSet(stream, start, numPanels);
      var cursor := Populate(start, all, todo, stream);
      BuildEnd(start, all, cursor);
    }

    /**
     * The constructor's loop: generates `numPanels` panels, one per id of
     * `todo`, and files each under its id.
     */
    method Populate(ghost start: set<string>, ghost all: set<string>, ghost todo: seq<string>,
                    stream: seq<CandidateDraw>) returns (cursor: seq<CandidateDraw>)
      requires |todo| == numPanels && panels == map[] && Building(start, all, todo, stream)
      modifies this`panels, registry
      ensures Building(start, all, [], cursor)
      ensures forall id :: id in panels ==> fresh(panels[id])
    {
      cursor := stream;
      ghost var pending := todo;
      for y := 0 to numPanels
        invariant y + |pending| == numPanels
        invariant Building(start, all, pending, cursor)
        invariant forall id :: id in panels ==> fresh(panels[id])
      {
        ghost var seen := panels;
        var newPanel;
        newPanel, cursor := BuildNext(start, all, pending, cursor);
        forall k | k in panels ensures fresh(panels[k]) {
          if k in seen {
            assert panels[k] == seen[k];
          }
        }
        pending := pending[1..];
      }
    }

    /** When no id is left to come, Building says what the constructor promises. */
    lemma BuildEnd(start: set<string>, all: set<string>, cursor: seq<CandidateDraw>)
      requires Building(start, all, [], cursor)
      ensures Valid()
      ensures panels.Keys == all && |panels| == |all|
      ensures registry.ids == start + panels.Keys
      ensures forall id :: id in panels ==> panels[id].IsNewFrom(id, panelConfig)
    {
      assert Elements([]) == {};
    }

    /**
     * The state while the constructor fills the farm from `start`, the
     * registry it began with: `todo` are the ids still to come from
     * `cursor`, and `all` are the ids of the finished farm.
     */
    ghost predicate Building(start: set<string>, all: set<string>, todo: seq<string>, cursor: seq<CandidateDraw>)
      reads this, registry, panels.Values
    {
      Built(start, all, todo, cursor, panels, registry.ids) && AllNewFrom(panels, panelConfig)
    }

    /** One round of the constructor's loop. */
    method BuildNext(ghost start: set<string>, ghost all: set<string>, ghost todo: seq<string>,
                     cursor: seq<CandidateDraw>) returns (newPanel: Panel, rest: seq<CandidateDraw>)
      requires |todo| > 0 && Building(start, all, todo, cursor)
      modifies this`panels, registry
      ensures Building(start, all, todo[1..], rest)
      ensures fresh(newPanel) && newPanel.panelId !in old(panels)
      ensures panels == old(panels)[newPanel.panelId := newPanel]
    {
      ghost var ps, reg := panels, registry.ids;
      newPanel, rest := AddGeneratedPanel(cursor, |todo|, todo);
      BuiltStep(start, all, todo, rest, ps, reg, newPanel);
    }

    /**
     * Generates a panel and files it under its id; `xs` are the ids that the
     * remaining generations will produce, the first of them this one's.
     */
    method AddGeneratedPanel(stream: seq<CandidateDraw>, ghost n: nat, ghost xs: seq<string>)
      returns (newPanel: Panel, rest: seq<CandidateDraw>)
      requires n > 0 && GenerateIds(stream, registry.ids, n) == Some(xs)
      modifies this`panels, registry
      ensures GenerateIds(rest, registry.ids, n - 1) == Some(xs[1..])
      ensures xs[0] !in old(registry.ids) && registry.ids == old(registry.ids) + {xs[0]}
      ensures panels == old(panels)[xs[0] := newPanel]
      ensures fresh(newPanel) && newPanel.IsNewFrom(xs[0], panelConfig)
      ensures old(AllNewFrom(panels, panelConfig)) ==> AllNewFrom(panels, panelConfig)
    {
      ghost var before := registry.ids;
      GenerateIdsStep(stream, before, n, xs);
      newPanel, rest := GeneratePanel(stream);
      panels := panels[newPanel.panelId := newPanel];
    }

    /** Builds a panel from the template under a freshly generated id. */
    method GeneratePanel(stream: seq<CandidateDraw>) returns (panel: Panel, rest: seq<CandidateDraw>)
      requires FirstFresh(stream, registry.ids).Some?
      modifies registry
      ensures Drawn(panel.panelId, rest) == FirstFresh(stream, old(registry.ids)).value
      ensures registry.ids == old(registry.ids) + {panel.panelId}
      ensures fresh(panel) && panel.IsNewFrom(panel.panelId, panelConfig)
    {
      var id;
      id, rest := GenerateId(stream);
      panel := new Panel(id.value, panelConfig);
    }

    /**
     * Draws candidates until one is not registered, registers it and
     * returns it with the candidates left; None when the candidates run out.
     */
    method GenerateId(stream: seq<CandidateDraw>) returns (id: Option<string>, rest: seq<CandidateDraw>)
      modifies registry
      ensures id.Some? <==> FirstFresh(stream, old(registry.ids)).Some?
      ensures id.Some? ==> Drawn(id.value, rest) == FirstFresh(stream, old(registry.ids)).value
      ensures id.Some? ==> id.value !in old(registry.ids) && WellFormedId(id.value)
      ensures id.Some? ==> registry.ids == old(registry.ids) + {id.value}
      ensures id.None? ==> registry.ids == old(registry.ids)
    {
      var i := 0;
      while i < |stream| && IdFromDraw(stream[i]) in registry.ids
        invariant 0 <= i <= |stream|
        invariant FirstFresh(stream[i..], registry.ids) == FirstFresh(stream, registry.ids)
      {
        assert stream[i..][1..] == stream[i + 1..];
        i := i + 1;
      }
      if i == |stream| {
        return None, [];
      }
      assert stream[i..][1..] == stream[i + 1..];
      var genId := IdFromDraw(stream[i]);
      registry.ids := registry.ids + {genId};
      return Some(genId), stream[i + 1..];
    }

    /**
     * Schedules a panel for replacement with the draw `chance`, unless it
     * is already scheduled.
     */
    method StartReplacement(panel: Panel, chance: real)
      modifies panel`daysToReplace
      ensures panel.daysToReplace == ScheduledDays(old(panel.daysToReplace), replacementDays, chance)
      ensures old(panel.daysToReplace) != -1 ==> panel.daysToReplace == old(panel.daysToReplace)
      ensures old(panel.daysToReplace) == -1 ==>
                (chance < 0.04 ==> panel.daysToReplace == MaxInt(replacementDays - 1, 0)) &&
                (0.65 < chance < 0.85 ==> panel.daysToReplace == replacementDays + 1) &&
                (chance >= 0.85 ==> panel.daysToReplace == replacementDays + 2) &&
                (0.04 <= chance <= 0.65 ==> panel.daysToReplace == -1)
    {
      if panel.daysToReplace == -1 {
        var c := chance;
        if c < 0.04 {
          panel.daysToReplace := MaxInt(replacementDays - 1, 0);
        } else if 0.65 < c && c < 0.85 {
          panel.daysToReplace := replacementDays + 1;
        } else if c >= 0.85 {
          panel.daysToReplace := replacementDays + 2;
        }
      }
    }

    /**
     * Counts every scheduled panel down by a day and replaces each panel
     * whose counter is 0 by a new panel under a freshly generated id. The
     * panels are visited in an arbitrary order over the ids present at entry.
     */
    method ReplaceIfNeeded(stream: seq<CandidateDraw>)
      requires Valid()
      requires GenerateIds(stream, registry.ids, |Due()|).Some?
      modifies this, registry, panels.Values`daysToReplace
      ensures Valid()
      ensures |panels| == old(|panels|)
      ensures forall id :: id in old(panels) && old(panels[id].daysToReplace) == 0 ==>
                id !in panels && id in registry.ids
      ensures forall id :: id in old(panels) && old(panels[id].daysToReplace) != 0 ==>
                id in panels && panels[id] == old(panels[id]) &&
                NextCounter(old(panels[id].daysToReplace)) == Some(panels[id].daysToReplace)
      ensures panels.Keys - old(panels.Keys) ==
                Elements(GenerateIds(stream, old(registry.ids), old(|Due()|)).value)
      ensures (panels.Keys - old(panels.Keys)) !! old(registry.ids)
      ensures registry.ids == old(registry.ids) + (panels.Keys - old(panels.Keys))
      ensures forall id :: id in panels && id !in old(panels) ==>
                fresh(panels[id]) && panels[id].IsNewFrom(id, panelConfig)
    {
      ghost var todo := GenerateIds(stream, registry.ids, |Due()|).value;
      ghost var at := Round(panels, Counters(), Due(), registry.ids, Elements(todo));
      RoundStart(at, todo, stream);
      var cursor := VisitAll(at, todo, stream);
      RoundEnd(at, cursor);
    }

    /** What ReplaceIfNeeded finds at entry makes Replacing hold with nothing visited. */
    lemma RoundStart(at: Round, todo: seq<string>, stream: seq<CandidateDraw>)
      requires Valid() && GenerateIds(stream, registry.ids, |Due()|) == Some(todo)
      requires at == Round(panels, Counters(), Due(), registry.ids, Elements(todo))
      ensures Replacing(at, at.before.Keys, todo, stream)
      ensures |at.added| == |at.due| && at.added !! at.registered
    {
      assert at.due == set id | id in at.days && at.days[id] == 0;
      GeneratedIdSet(stream, registry.ids, |at.due|);
      ReplacingAtEntry(at, todo, stream, panels, registry.ids);
      assert panels - at.before.Keys == map[];
    }

    /** When every id is visited, Replacing says what ReplaceIfNeeded promises. */
    lemma RoundEnd(at: Round, cursor: seq<CandidateDraw>)
      requires Replacing(at, {}, [], cursor)
      requires |at.added| == |at.due| && at.added !! at.registered
      ensures Valid()
      ensures |panels| == |at.before|
      ensures forall id :: id in at.before && id in at.due ==> id !in panels && id in registry.ids
      ensures forall id :: id in at.before && id !in at.due ==>
                id in panels && panels[id] == at.before[id] &&
                NextCounter(at.days[id]) == Some(panels[id].daysToReplace)
      ensures panels.Keys - at.before.Keys == at.added
      ensures registry.ids == at.registered + at.added
      ensures forall id :: id in panels && id !in at.before ==> panels[id].IsNewFrom(id, panelConfig)
    {
      assert Elements([]) == {};
      ReplacingAtExit(at, panels, registry.ids);
      SettledAtExit(at, panels, registry.ids, Counters());
      forall k | k in panels && k !in at.before ensures panels[k].IsNewFrom(k, panelConfig) {
        assert (panels - at.before.Keys)[k] == panels[k];
      }
    }

    /**
     * The loop of ReplaceIfNeeded: visits every id of `at.before` once, in
     * an arbitrary order, and returns the candidates left.
     */
    method VisitAll(ghost at: Round, ghost todo: seq<string>, stream: seq<CandidateDraw>)
      returns (cursor: seq<CandidateDraw>)
      requires Replacing(at, at.before.Keys, todo, stream)
      requires panels == at.before
      modifies this`panels, registry, at.before.Values`daysToReplace
      ensures Replacing(at, {}, [], cursor)
      ensures forall id :: id in panels && id !in at.before ==> fresh(panels[id])
    {
      var keys := panels.Keys;
      cursor := stream;
      ghost var pending := todo;
      while keys != {}
        invariant Replacing(at, keys, pending, cursor)
        invariant forall id :: id in panels && id !in at.before ==> fresh(panels[id])
        decreases keys
      {
        var id :| id in keys;
        ghost var seen := panels;
        ghost var next;
        cursor, next := Visit(at, keys, pending, id, cursor);
        forall k | k in panels && k !in at.before ensures fresh(panels[k]) {
          if k in seen {
            assert panels[k] == seen[k];
          }
        }
        pending := next;
        keys := keys - {id};
      }
      assert |pending| == |at.due * {}| == 0;
    }

    /**
     * The state while ReplaceIfNeeded walks the ids it found at entry:
     * `keys` are the ids not visited yet, `todo` the ids still to be
     * generated from `cursor`, one for each due panel not yet visited.
     */
    ghost predicate Replacing(at: Round, keys: set<string>, todo: seq<string>, cursor: seq<CandidateDraw>)
      reads this, registry, panels.Values
    {
      RoundShape(at, keys) && Pending(at, keys, todo, cursor, panels, registry.ids) &&
      Present(at, keys, panels, registry.ids) && CountersReplaced(at, keys, Counters()) &&
      AllNewFrom(panels - at.before.Keys, panelConfig)
    }

    /** The counter of every panel, by id. */
    ghost function Counters(): (c: map<string, int>)
      reads this, panels.Values
      ensures c.Keys == panels.Keys
    {
      map id | id in panels :: panels[id].daysToReplace
    }

    /** One round of ReplaceIfNeeded's loop: the panel under `id`. */
    method Visit(ghost at: Round, ghost keys: set<string>, ghost todo: seq<string>, id: string,
                 cursor: seq<CandidateDraw>) returns (rest: seq<CandidateDraw>, ghost next: seq<string>)
      requires id in keys && id in panels && Replacing(at, keys, todo, cursor)
      modifies this`panels, registry, {panels[id]}`daysToReplace
      ensures Replacing(at, keys - {id}, next, rest)
      ensures forall k :: k in panels && k !in old(panels) ==> fresh(panels[k])
      ensures forall k :: k in panels && k in old(panels) ==> panels[k] == old(panels[k])
    {
      if panels[id].daysToReplace == 0 {
        var newPanel;
        ghost var before := panels;
        newPanel, rest := RetireDue(at, keys, todo, id, cursor);
        next := todo[1..];
        SwappedEntry(before, panels, id, newPanel.panelId, newPanel);
      } else {
        CountDownAt(at, keys, todo, id, cursor);
        rest, next := cursor, todo;
      }
    }

    /** A due panel is replaced by a new one under the next generated id. */
    method RetireDue(ghost at: Round, ghost keys: set<string>, ghost todo: seq<string>, id: string,
                     cursor: seq<CandidateDraw>) returns (newPanel: Panel, rest: seq<CandidateDraw>)
      requires id in keys && id in panels && panels[id].daysToReplace == 0
      requires Replacing(at, keys, todo, cursor)
      modifies this`panels, registry
      ensures id in at.due && |todo| > 0
      ensures Replacing(at, keys - {id}, todo[1..], rest)
      ensures fresh(newPanel) && newPanel.panelId !in old(panels)
      ensures panels == (old(panels) - {id})[newPanel.panelId := newPanel]
    {
      assert at.before[id] == panels[id];
      ghost var c := Counters();
      ghost var ps := panels;
      ghost var reg := registry.ids;
      newPanel, rest := ReplacePanel(id, cursor, at.before.Keys);
      PendingRetire(at, keys, todo, cursor, rest, ps, reg, id, newPanel);
      PresentRetire(at, keys, ps, reg, id, todo[0], newPanel);
      CountersRetire(at, keys, c, id, todo[0], -1);
      assert Pending(at, keys - {id}, todo[1..], rest, panels, registry.ids);
      assert Present(at, keys - {id}, panels, registry.ids);
      assert CountersReplaced(at, keys - {id}, Counters());
    }

    /** A panel that is not due only has its counter moved on. */
    method CountDownAt(ghost at: Round, ghost keys: set<string>, ghost todo: seq<string>, id: string,
                       ghost cursor: seq<CandidateDraw>)
      requires id in keys && id in panels && panels[id].daysToReplace != 0
      requires Replacing(at, keys, todo, cursor)
      modifies {panels[id]}`daysToReplace
      ensures id !in at.due
      ensures Replacing(at, keys - {id}, todo, cursor)
    {
      ghost var c := Counters();
      assert at.before[id] == panels[id];
      PendingSkip(at, keys, todo, cursor, panels, registry.ids, id);
      PresentSkip(at, keys, panels, registry.ids, id);
      CountersStep(at, keys, c, id);
      CountDown(id, at.before.Keys);
    }

    /**
     * Moves the counter of the panel under `id` on by a day; the panels
     * not under an id of `kept` keep everything.
     */
    method CountDown(id: string, ghost kept: set<string>)
      requires Valid() && id in panels && panels[id].daysToReplace != 0 && id in kept
      modifies {panels[id]}`daysToReplace
      ensures NextCounter(old(panels[id].daysToReplace)) == Some(panels[id].daysToReplace)
      ensures Counters() == old(Counters())[id := panels[id].daysToReplace]
      ensures old(AllNewFrom(panels - kept, panelConfig)) ==> AllNewFrom(panels - kept, panelConfig)
    {
      var panel := panels[id];
      forall k | k in panels && k != id ensures panels[k] != panel {
        assert panels[k].panelId == k;
      }
      assert panel !in (panels - kept).Values;
      if panel.daysToReplace > 0 {
        panel.daysToReplace := panel.daysToReplace - 1;
      }
      forall k | k in panels ensures Counters()[k] == old(Counters())[id := panel.daysToReplace][k] {
        if k != id {
          assert panels[k] != panel;
        }
      }
    }

    /** Retires the panel under `id` and puts a new panel under a fresh id in its place. */
    method ReplacePanel(id: string, stream: seq<CandidateDraw>, ghost kept: set<string>)
      returns (newPanel: Panel, rest: seq<CandidateDraw>)
      requires Valid() && id in panels && id in kept
      requires FirstFresh(stream, registry.ids).Some?
      modifies this`panels, registry
      ensures Valid()
      ensures Drawn(newPanel.panelId, rest) == FirstFresh(stream, old(registry.ids)).value
      ensures panels == (old(panels) - {id})[newPanel.panelId := newPanel]
      ensures registry.ids == old(registry.ids) + {newPanel.panelId}
      ensures fresh(newPanel) && newPanel.IsNewFrom(newPanel.panelId, panelConfig)
      ensures Counters() == (old(Counters()) - {id})[newPanel.panelId := -1]
      ensures old(AllNewFrom(panels - kept, panelConfig)) && newPanel.panelId !in kept ==>
                AllNewFrom(panels - kept, panelConfig)
    {
      RemovePanel(id, kept);
      newPanel, rest := FileGenerated(stream, kept);
    }

    /** Generates a panel and files it under its fresh id, with the template's counter. */
    method FileGenerated(stream: seq<CandidateDraw>, ghost kept: set<string>)
      returns (newPanel: Panel, rest: seq<CandidateDraw>)
      requires Valid() && FirstFresh(stream, registry.ids).Some?
      modifies this`panels, registry
      ensures Valid()
      ensures Drawn(newPanel.panelId, rest) == FirstFresh(stream, old(registry.ids)).value
      ensures panels == old(panels)[newPanel.panelId := newPanel]
      ensures registry.ids == old(registry.ids) + {newPanel.panelId}
      ensures fresh(newPanel) && newPanel.IsNewFrom(newPanel.panelId, panelConfig)
      ensures Counters() == old(Counters())[newPanel.panelId := -1]
      ensures old(AllNewFrom(panels - kept, panelConfig)) && newPanel.panelId !in kept ==>
                AllNewFrom(panels - kept, panelConfig)
    {
      ghost var young := panels - kept;
      ghost var c := Counters();
      newPanel, rest := GeneratePanel(stream);
      panels := panels[newPanel.panelId := newPanel];
      if newPanel.panelId !in kept {
        assert panels - kept == young[newPanel.panelId := newPanel];
      }
      forall k | k in panels ensures Counters()[k] == c[newPanel.panelId := -1][k] {
      }
    }

    /** Takes `id` out of the farm; the other panels keep their counters. */
    method RemovePanel(id: string, ghost kept: set<string>)
      requires Valid() && id in panels && id in kept
      modifies this`panels
      ensures Valid() && panels == old(panels) - {id}
      ensures Counters() == old(Counters()) - {id}
      ensures old(AllNewFrom(panels - kept, panelConfig)) ==> AllNewFrom(panels - kept, panelConfig)
    {
      ghost var young := panels - kept;
      panels := panels - {id};
      assert panels - kept == young;
    }

    /**
     * Applies one farm-wide dirt event per hour: hour `h` draws
     * `dirtDraws[h]`, clamps it to be non-negative and applies the same
     * value to every panel, with the panel's own Gaussian draw
     * `variances[id][h]`.
     */
    method CalculateDirtAcc(hours: nat, dirtDraws: seq<real>, variances: map<string, seq<real>>)
      requires Valid()
      requires |dirtDraws| == hours
      requires forall id :: id in panels ==> id in variances && |variances[id]| == hours
      modifies panels.Values`cleanliness
      ensures forall id :: id in panels ==>
                panels[id].cleanliness ==
                DirtOverHours(old(panels[id].cleanliness), panels[id].minCleanliness, dirtDraws, variances[id])
    {
      ghost var start := map id | id in panels :: panels[id].cleanliness;
      for h := 0 to hours
        invariant forall id :: id in panels ==>
                    panels[id].cleanliness ==
                    DirtOverHours(start[id], panels[id].minCleanliness, dirtDraws[..h], variances[id][..h])
      {
        var dirtAcc := FarmDirt(dirtDraws[h]);
        ApplyDirtEvent(dirtAcc, variances, h);
        forall id | id in panels
          ensures panels[id].cleanliness ==
                  DirtOverHours(start[id], panels[id].minCleanliness, dirtDraws[..h + 1], variances[id][..h + 1])
        {
          DirtOverHoursStep(start[id], panels[id].minCleanliness, dirtDraws, variances[id], h);
        }
      }
      assert dirtDraws[..hours] == dirtDraws;
      assert forall id :: id in panels ==> variances[id][..hours] == variances[id];
    }

    /**
     * One hour of CalculateDirtAcc: every panel takes the dirt event
     * `dirtAcc` with its own Gaussian draw `variances[id][h]`.
     */
    method ApplyDirtEvent(dirtAcc: real, variances: map<string, seq<real>>, h: nat)
      requires Valid()
      requires forall id :: id in panels ==> id in variances && h < |variances[id]|
      modifies panels.Values`cleanliness
      ensures forall id :: id in panels ==>
                panels[id].cleanliness ==
                DirtAfter(old(panels[id].cleanliness), panels[id].minCleanliness, dirtAcc, variances[id][h])
    {
      var todo := panels.Keys;
      while todo != {}
        invariant todo <= panels.Keys
        invariant forall id :: id in panels && id !in todo ==>
                    panels[id].cleanliness ==
                    DirtAfter(old(panels[id].cleanliness), panels[id].minCleanliness, dirtAcc, variances[id][h])
        invariant forall id :: id in todo ==> panels[id].cleanliness == old(panels[id].cleanliness)
        decreases todo
      {
        var id :| id in todo;
        var panel := panels[id];
        forall k | k in panels && k != id ensures panels[k] != panel {
          assert panels[k].panelId == k;
        }
        var _ := panel.CalculateDirtAcc(dirtAcc, variances[id][h]);
        todo := todo - {id};
      }
    }
  }
}
