/**
 * The Nightscout v3 upload selector: one "last synced id" cursor per
 * collection, a loop per collection that walks the change log from the
 * cursor, classifies each change as ignored, added or updated, and stops at
 * the first failed upload; plus the queue counter, the full-sync reset and
 * the profile-store upload.  The database, the client's `nsAdd`/`nsUpdate`
 * answers and the profile source are inputs.
 */
module DataSync {
  import opened Wrappers

  datatype Collection =
    | GlucoseValues | Boluses | Carbs | BolusCalculatorResults | TemporaryBasals | ExtendedBoluses
    | ProfileSwitches | EffectiveProfileSwitches | TemporaryTargets | Foods | TherapyEvents
    | DeviceStatuses | OfflineEvents

  /** The order in which `doUpload` processes the collections. */
  const Collections: seq<Collection> := [
    GlucoseValues, Boluses, Carbs, BolusCalculatorResults, TemporaryBasals, ExtendedBoluses,
    ProfileSwitches, EffectiveProfileSwitches, TemporaryTargets, Foods, TherapyEvents,
    DeviceStatuses, OfflineEvents]

  /** Where a collection stands in `doUpload`'s order: every collection is listed. */
  function Position(c: Collection): (n: nat)
    ensures n < |Collections| && Collections[n] == c
  {
    match c
    case GlucoseValues => 0
    case Boluses => 1
    case Carbs => 2
    case BolusCalculatorResults => 3
    case TemporaryBasals => 4
    case ExtendedBoluses => 5
    case ProfileSwitches => 6
    case EffectiveProfileSwitches => 7
    case TemporaryTargets => 8
    case Foods => 9
    case TherapyEvents => 10
    case DeviceStatuses => 11
    case OfflineEvents => 12
  }

  /** No collection is listed twice. */
  lemma CollectionsListedOnce(j: int)
    requires 0 <= j < |Collections|
    ensures Position(Collections[j]) == j
  {
  }

  /** The Nightscout v3 collections the client writes to: `entries`, `food`, `devicestatus` and `treatments`. */
  datatype Resource = Entries | Food | DeviceStatus | Treatments

  /** The Nightscout collection that the records of `c` are uploaded to. */
  function Endpoint(c: Collection): Resource
  {
    match c
    case GlucoseValues => Entries
    case Foods => Food
    case DeviceStatuses => DeviceStatus
    case _ => Treatments
  }

  /** The preference keys holding the cursors. */
  datatype CursorKey = LastSynced(collection: Collection) | ProfileStoreLastSynced

  /** A cursor as read from the preferences: 0 when the key is absent. */
  function CursorIn(prefs: map<CursorKey, int>, k: CursorKey): int
  {
    if k in prefs then prefs[k] else 0
  }

  /**
   * One element of a collection's change log: `recordId` is the current
   * record's id (`first.id`), `changeId` the id of the row that changed
   * (`second.id`), `hasNsId` whether the record has a Nightscout id, and
   * `onlyNsIdAdded` whether the change only added that id.
   */
  datatype Change = Change(recordId: int, changeId: int, hasNsId: bool, onlyNsIdAdded: bool)

  /** A collection's change log in id order, and the last id of its table (absent when empty). */
  datatype Table = Table(changes: seq<Change>, lastId: Option<int>)

  function LastDbId(t: Table): int
  {
    t.lastId.GetOr(0)
  }

  predicate Sorted(cs: seq<Change>)
  {
    forall i, j :: 0 <= i < j < |cs| ==> cs[i].changeId < cs[j].changeId
  }

  /** What the persistence layer guarantees: ids increase and none exceeds the table's last id. */
  predicate ValidTable(t: Table)
  {
    Sorted(t.changes) && forall i :: 0 <= i < |t.changes| ==> t.changes[i].changeId <= LastDbId(t)
  }

  /** The changes after `startId`, in order; `getNextSyncElement(startId)` returns the first. */
  function Pending(cs: seq<Change>, startId: int): (p: seq<Change>)
    ensures |p| <= |cs|
    decreases |cs|
  {
    if cs == [] then []
    else if cs[0].changeId > startId then cs
    else Pending(cs[1..], startId)
  }

  /** A tail of a sorted log is sorted. */
  lemma SortedTail(cs: seq<Change>)
    requires Sorted(cs) && cs != []
    ensures Sorted(cs[1..])
  {
    forall i, j | 0 <= i < j < |cs[1..]| ensures cs[1..][i].changeId < cs[1..][j].changeId {
      assert cs[1..][i] == cs[i + 1] && cs[1..][j] == cs[j + 1];
    }
  }

  /** The pending changes are a suffix of the log. */
  lemma {:induction false} PendingIsSuffix(cs: seq<Change>, startId: int)
    requires Sorted(cs)
    ensures Pending(cs, startId) == cs[|cs| - |Pending(cs, startId)|..]
    decreases |cs|
  {
    if cs != [] && cs[0].changeId <= startId {
      SortedTail(cs);
      PendingIsSuffix(cs[1..], startId);
      var p := Pending(cs[1..], startId);
      assert cs[1..][|cs[1..]| - |p|..] == cs[|cs| - |p|..];
    }
  }

  /** Every pending change is newer than `startId`. */
  lemma {:induction false} PendingAreNewer(cs: seq<Change>, startId: int)
    requires Sorted(cs)
    ensures forall i :: 0 <= i < |Pending(cs, startId)| ==> Pending(cs, startId)[i].changeId > startId
    decreases |cs|
  {
    if cs != [] {
      if cs[0].changeId > startId {
        forall i | 0 < i < |cs| ensures cs[i].changeId > startId {
          assert cs[0].changeId < cs[i].changeId;
        }
      } else {
        SortedTail(cs);
        PendingAreNewer(cs[1..], startId);
      }
    }
  }

  /** Every change left out of the pending suffix is at most `startId`. */
  lemma {:induction false} SkippedAreOlder(cs: seq<Change>, startId: int)
    requires Sorted(cs)
    ensures forall i :: 0 <= i < |cs| - |Pending(cs, startId)| ==> cs[i].changeId <= startId
    decreases |cs|
  {
    if cs != [] && cs[0].changeId <= startId {
      SortedTail(cs);
      SkippedAreOlder(cs[1..], startId);
      var n := |cs| - |Pending(cs, startId)|;
      forall i | 0 < i < n ensures cs[i].changeId <= startId {
        assert cs[i] == cs[1..][i - 1];
      }
    }
  }

  /** After the first pending change, the pending changes are the rest. */
  lemma {:induction false} PendingAfterHead(cs: seq<Change>, startId: int)
    requires Sorted(cs) && Pending(cs, startId) != []
    ensures Pending(cs, Pending(cs, startId)[0].changeId) == Pending(cs, startId)[1..]
    decreases |cs|
  {
    if cs[0].changeId > startId {
      assert Pending(cs, cs[0].changeId) == Pending(cs[1..], cs[0].changeId);
      if |cs| > 1 {
        assert cs[1..][0].changeId > cs[0].changeId;
      }
    } else {
      SortedTail(cs);
      PendingAfterHead(cs[1..], startId);
      PendingAreNewer(cs[1..], startId);
      assert cs[0].changeId < Pending(cs, startId)[0].changeId;
    }
  }

  /** The cursor the loop starts from: one beyond the table's last id is reset to 0. */
  function EffectiveStart(cursor: int, t: Table): (s: int)
    ensures s <= LastDbId(t) || s == 0
    ensures cursor <= LastDbId(t) ==> s == cursor
  {
    if cursor > LastDbId(t) then 0 else cursor
  }

  /** How a change is handled. */
  datatype Decision = LoadedFromNs | OnlyNsIdAdded | BgUploadDisabled | NoProfile | Add | Update

  predicate Uploads(d: Decision)
  {
    d == Add || d == Update
  }

  /**
   * The classification every collection shares: loaded from Nightscout or
   * only given an id there → ignored; no Nightscout id → add; otherwise update.
   */
  function Classify(ch: Change): (d: Decision)
    ensures d == LoadedFromNs <==> ch.recordId == ch.changeId && ch.hasNsId
    ensures d == OnlyNsIdAdded <==> !(ch.recordId == ch.changeId && ch.hasNsId) && ch.onlyNsIdAdded
    ensures d == Add <==> !ch.hasNsId && !ch.onlyNsIdAdded
    ensures d == Update <==> ch.hasNsId && ch.recordId != ch.changeId && !ch.onlyNsIdAdded
  {
    if ch.recordId == ch.changeId && ch.hasNsId then LoadedFromNs
    else if ch.onlyNsIdAdded then OnlyNsIdAdded
    else if !ch.hasNsId then Add
    else Update
  }

  /** Everything the upload loops read from outside: the database, the BG settings, the profile, the client. */
  datatype Env = Env(
    db: Collection -> Table,
    bgUploadPreference: bool,
    bgSourceIsNsClient: bool,
    hasProfileAt: Change -> bool,
    clientPresent: bool,
    accepts: (Collection, Change) -> bool)

  /** `bgUploadEnabled`: the preference is on and glucose does not come from Nightscout itself. */
  function BgUploadEnabled(env: Env): bool
  {
    env.bgUploadPreference && !env.bgSourceIsNsClient
  }

  /** The per-collection decision: glucose values need BG upload, extended boluses a profile, device statuses are always added. */
  function Decide(c: Collection, ch: Change, env: Env): (d: Decision)
    ensures c == GlucoseValues && !BgUploadEnabled(env) ==> d == BgUploadDisabled
    ensures c == ExtendedBoluses && !env.hasProfileAt(ch) ==> d == NoProfile
    ensures c == DeviceStatuses ==> d == Add
    ensures c != DeviceStatuses && Uploads(d) ==> d == Classify(ch)
  {
    match c
    case GlucoseValues => if BgUploadEnabled(env) then Classify(ch) else BgUploadDisabled
    case ExtendedBoluses => if env.hasProfileAt(ch) then Classify(ch) else NoProfile
    case DeviceStatuses => Add
    case _ => Classify(ch)
  }

  /** One request to the client; device statuses are paired with the table's last id. */
  datatype Call = Call(endpoint: Resource, isAdd: bool, recordId: int, pairedId: int)

  datatype RunResult = RunResult(cursor: int, calls: seq<Call>)

  function Max(a: int, b: int): int
  {
    if a < b then b else a
  }

  /**
   * What one `processChanged*` loop does to the pending changes, as a
   * function: ignored changes only advance the cursor, uploaded ones
   * advance it when the client accepts, and the first refusal (or a
   * missing client) stops the run.
   */
  function Run(c: Collection, pending: seq<Change>, cursor: int, lastDbId: int, env: Env): RunResult
    decreases |pending|
  {
    if pending == [] then RunResult(cursor, [])
    else
      var ch := pending[0];
      var d := Decide(c, ch, env);
      if !Uploads(d) then Run(c, pending[1..], Max(cursor, ch.changeId), lastDbId, env)
      else if !env.clientPresent then RunResult(cursor, [])
      else
        var call := Call(Endpoint(c), d == Add, ch.recordId, if c == DeviceStatuses then lastDbId else ch.changeId);
        if !env.accepts(c, ch) then RunResult(cursor, [call])
        else
          var rest := Run(c, pending[1..], Max(cursor, ch.changeId), lastDbId, env);
          RunResult(rest.cursor, [call] + rest.calls)
  }

  /** The run of collection `c` from the cursor stored in `prefs`. */
  function FinalRun(c: Collection, prefs: map<CursorKey, int>, env: Env): RunResult
  {
    var t := env.db(c);
    var s := EffectiveStart(CursorIn(prefs, LastSynced(c)), t);
    Run(c, Pending(t.changes, s), s, LastDbId(t), env)
  }

  /**
   * The cursor never moves back during a run and never passes the table's
   * last id; it stops either where it started or at a pending change.
   */
  lemma {:induction false} RunCursorBounds(c: Collection, pending: seq<Change>, cursor: int, lastDbId: int, env: Env)
    requires cursor <= lastDbId && Sorted(pending)
    requires forall i :: 0 <= i < |pending| ==> cursor < pending[i].changeId <= lastDbId
    ensures var r := Run(c, pending, cursor, lastDbId, env);
            cursor <= r.cursor <= lastDbId &&
            (r.cursor == cursor || exists i :: 0 <= i < |pending| && r.cursor == pending[i].changeId)
    decreases |pending|
  {
    if pending != [] {
      var ch := pending[0];
      var next := Max(cursor, ch.changeId);
      assert next == ch.changeId;
      if |pending| > 1 {
        assert forall i :: 0 <= i < |pending[1..]| ==> pending[1..][i] == pending[i + 1];
      }
      RunCursorBounds(c, pending[1..], next, lastDbId, env);
      var rest := Run(c, pending[1..], next, lastDbId, env);
      if rest.cursor != next {
        var i :| 0 <= i < |pending[1..]| && rest.cursor == pending[1..][i].changeId;
        assert rest.cursor == pending[i + 1].changeId;
      }
    }
  }

  /** `call` is the request for change `ch`: add or update as classified, at the collection's endpoint. */
  predicate RequestFor(call: Call, c: Collection, ch: Change, env: Env)
  {
    call.endpoint == Endpoint(c) && call.recordId == ch.recordId &&
    Uploads(Decide(c, ch, env)) && call.isAdd == (Decide(c, ch, env) == Add)
  }

  /** A request for some change of `pending`. */
  predicate RequestForOneOf(call: Call, c: Collection, pending: seq<Change>, env: Env)
  {
    exists i :: 0 <= i < |pending| && RequestFor(call, c, pending[i], env)
  }

  lemma RequestForTail(call: Call, c: Collection, pending: seq<Change>, env: Env)
    requires pending != [] && RequestForOneOf(call, c, pending[1..], env)
    ensures RequestForOneOf(call, c, pending, env)
  {
    var i :| 0 <= i < |pending[1..]| && RequestFor(call, c, pending[1..][i], env);
    assert pending[1..][i] == pending[i + 1];
  }

  /**
   * Only changes classified add or update reach the client, each at the
   * collection's endpoint and with the add/update choice of its
   * classification; no request is made without a client.
   */
  lemma {:induction false} RunCallsAreUploads(c: Collection, pending: seq<Change>, cursor: int, lastDbId: int, env: Env)
    ensures var r := Run(c, pending, cursor, lastDbId, env);
            |r.calls| <= |pending| &&
            (forall k :: 0 <= k < |r.calls| ==> RequestForOneOf(r.calls[k], c, pending, env)) &&
            (r.calls != [] ==> env.clientPresent)
    decreases |pending|
  {
    if pending != [] {
      var ch := pending[0];
      var next := Max(cursor, ch.changeId);
      RunCallsAreUploads(c, pending[1..], next, lastDbId, env);
      var rest := Run(c, pending[1..], next, lastDbId, env);
      var r := Run(c, pending, cursor, lastDbId, env);
      var d := Decide(c, ch, env);
      if !Uploads(d) {
        forall k | 0 <= k < |r.calls| ensures RequestForOneOf(r.calls[k], c, pending, env) {
          RequestForTail(r.calls[k], c, pending, env);
        }
      } else if env.clientPresent {
        assert RequestFor(r.calls[0], c, pending[0], env);
        if env.accepts(c, ch) {
          forall k | 1 <= k < |r.calls| ensures RequestForOneOf(r.calls[k], c, pending, env) {
            assert r.calls[k] == rest.calls[k - 1];
            RequestForTail(r.calls[k], c, pending, env);
          }
        }
      }
    }
  }

  /**
   * When the client takes every request, the run walks to the last pending
   * change; with BG upload off, glucose values are walked without a single
   * request.
   */
  lemma {:induction false} RunCompletes(c: Collection, pending: seq<Change>, cursor: int, lastDbId: int, env: Env)
    requires forall i :: 0 <= i < |pending| ==> cursor < pending[i].changeId
    requires forall i, j :: 0 <= i < j < |pending| ==> pending[i].changeId < pending[j].changeId
    requires (env.clientPresent && forall ch :: env.accepts(c, ch)) || (c == GlucoseValues && !BgUploadEnabled(env))
    ensures var r := Run(c, pending, cursor, lastDbId, env);
            r.cursor == (if pending == [] then cursor else pending[|pending| - 1].changeId)
    ensures c == GlucoseValues && !BgUploadEnabled(env) ==> Run(c, pending, cursor, lastDbId, env).calls == []
    decreases |pending|
  {
    if pending != [] {
      var ch := pending[0];
      assert Max(cursor, ch.changeId) == ch.changeId;
      RunCompletes(c, pending[1..], ch.changeId, lastDbId, env);
      if |pending| > 1 {
        assert pending[1..][|pending[1..]| - 1] == pending[|pending| - 1];
      }
    }
  }

  /** A refused upload stops the run: the cursor stays before the refused change. */
  lemma RefusalStopsRun(c: Collection, pending: seq<Change>, cursor: int, lastDbId: int, env: Env)
    requires pending != [] && Uploads(Decide(c, pending[0], env))
    requires !env.clientPresent || !env.accepts(c, pending[0])
    ensures Run(c, pending, cursor, lastDbId, env).cursor == cursor
    ensures |Run(c, pending, cursor, lastDbId, env).calls| == (if env.clientPresent then 1 else 0)
  {
  }

  /** What one turn of the loop does from cursor `s`: where the cursor goes, the request made, and whether the loop goes on. */
  datatype Step = Step(cursor: int, call: Option<Call>, cont: bool)

  function Requests(call: Option<Call>): seq<Call>
  {
    if call.Some? then [call.value] else []
  }

  /**
   * One loop turn on the first change after `s`: none left → stop; ignored
   * → move past it; no client → stop; otherwise one request, and move past
   * the change only when the client accepted it.
   */
  function NextStep(c: Collection, t: Table, s: int, env: Env): (st: Step)
    ensures st.cont ==> Pending(t.changes, s) != [] && st.cursor == Pending(t.changes, s)[0].changeId
    ensures !st.cont ==> st.cursor == s
    ensures st.call.Some? <==> Pending(t.changes, s) != [] && Uploads(Decide(c, Pending(t.changes, s)[0], env)) && env.clientPresent
  {
    var p := Pending(t.changes, s);
    if p == [] then Step(s, None, false)
    else
      var ch := p[0];
      var d := Decide(c, ch, env);
      if !Uploads(d) then Step(ch.changeId, None, true)
      else if !env.clientPresent then Step(s, None, false)
      else
        var call := Call(Endpoint(c), d == Add, ch.recordId, if c == DeviceStatuses then LastDbId(t) else ch.changeId);
        if env.accepts(c, ch) then Step(ch.changeId, Some(call), true) else Step(s, Some(call), false)
  }

  /**
   * The whole run is one step followed by the run from where the step
   * left the cursor; a step that goes on moves the cursor forward but not
   * past the table's last id.
   */
  lemma RunStep(c: Collection, t: Table, s: int, env: Env)
    requires ValidTable(t)
    ensures var st := NextStep(c, t, s, env);
            var r := Run(c, Pending(t.changes, s), s, LastDbId(t), env);
            var rest := Run(c, Pending(t.changes, st.cursor), st.cursor, LastDbId(t), env);
            (st.cont ==> s < st.cursor <= LastDbId(t) && r.cursor == rest.cursor && r.calls == Requests(st.call) + rest.calls) &&
            (!st.cont ==> r == RunResult(s, Requests(st.call)))
  {
    var p := Pending(t.changes, s);
    if p != [] {
      var ch := p[0];
      PendingAfterHead(t.changes, s);
      PendingIsSuffix(t.changes, s);
      PendingAreNewer(t.changes, s);
      assert ch == t.changes[|t.changes| - |p|];
      assert s < ch.changeId <= LastDbId(t);
      assert Max(s, ch.changeId) == ch.changeId;
      assert Pending(t.changes, ch.changeId) == p[1..];
      var d := Decide(c, ch, env);
      var rest := Run(c, p[1..], ch.changeId, LastDbId(t), env);
      if !Uploads(d) {
        assert NextStep(c, t, s, env) == Step(ch.changeId, None, true);
        assert Run(c, p, s, LastDbId(t), env) == rest;
      } else if env.clientPresent && env.accepts(c, ch) {
        var call := Call(Endpoint(c), d == Add, ch.recordId, if c == DeviceStatuses then LastDbId(t) else ch.changeId);
        assert NextStep(c, t, s, env) == Step(ch.changeId, Some(call), true);
        assert Run(c, p, s, LastDbId(t), env) == RunResult(rest.cursor, [call] + rest.calls);
      }
    }
  }

  /**
   * After the first `i` collections of `doUpload`: each of them sits at the
   * cursor of its own run from `start` with its counter set, and every
   * later collection and the profile-store cursor are as they were.
   */
  predicate DoneUpTo(i: int, start: map<CursorKey, int>, p: map<CursorKey, int>, m: map<Collection, int>, env: Env)
    requires 0 <= i <= |Collections|
  {
    (forall j :: 0 <= j < i ==> CursorIn(p, LastSynced(Collections[j])) == FinalRun(Collections[j], start, env).cursor) &&
    (forall j :: 0 <= j < i ==>
       RemainingIn(m, Collections[j]) == LastDbId(env.db(Collections[j])) - CursorIn(p, LastSynced(Collections[j]))) &&
    (forall j :: i <= j < |Collections| ==> CursorIn(p, LastSynced(Collections[j])) == CursorIn(start, LastSynced(Collections[j]))) &&
    CursorIn(p, ProfileStoreLastSynced) == CursorIn(start, ProfileStoreLastSynced)
  }

  /** Processing collection `i` as `processChanged*` does extends `DoneUpTo` and the requests by that collection's run. */
  lemma ProcessAllStep(i: int, env: Env, start: map<CursorKey, int>,
                       p: map<CursorKey, int>, q: map<CursorKey, int>, m: map<Collection, int>, n: map<Collection, int>)
    requires ValidDb(env) && 0 <= i < |Collections|
    requires DoneUpTo(i, start, p, m, env)
    requires q - {LastSynced(Collections[i])} == p - {LastSynced(Collections[i])}
    requires n - {Collections[i]} == m - {Collections[i]}
    requires CursorIn(q, LastSynced(Collections[i])) == FinalRun(Collections[i], p, env).cursor
    requires RemainingIn(n, Collections[i]) == LastDbId(env.db(Collections[i])) - CursorIn(q, LastSynced(Collections[i]))
    ensures DoneUpTo(i + 1, start, q, n, env)
    ensures FinalRun(Collections[i], p, env) == FinalRun(Collections[i], start, env)
  {
    var c := Collections[i];
    SameCursorSameRun(c, p, start, env);
    OtherCollectionsUnaffected(q, p, n, m, i);
    forall j | 0 <= j < i + 1
      ensures CursorIn(q, LastSynced(Collections[j])) == FinalRun(Collections[j], start, env).cursor
      ensures RemainingIn(n, Collections[j]) == LastDbId(env.db(Collections[j])) - CursorIn(q, LastSynced(Collections[j]))
    {
      if j < i {
        assert CursorIn(q, LastSynced(Collections[j])) == CursorIn(p, LastSynced(Collections[j]));
        assert RemainingIn(n, Collections[j]) == RemainingIn(m, Collections[j]);
      }
    }
    forall j | i + 1 <= j < |Collections|
      ensures CursorIn(q, LastSynced(Collections[j])) == CursorIn(start, LastSynced(Collections[j]))
    {
      assert CursorIn(q, LastSynced(Collections[j])) == CursorIn(p, LastSynced(Collections[j]));
    }
  }

  /** The requests of the first `i + 1` collections are those of the first `i` followed by the `i`-th collection's run. */
  lemma AllCallsStep(i: int, prefs: map<CursorKey, int>, env: Env)
    requires 0 <= i < |Collections|
    ensures AllCalls(Collections[..i + 1], prefs, env) == AllCalls(Collections[..i], prefs, env) + FinalRun(Collections[i], prefs, env).calls
  {
    assert Collections[..i + 1][..i] == Collections[..i];
  }

  /** A run depends on the stored preferences only through the collection's own cursor. */
  lemma SameCursorSameRun(c: Collection, p: map<CursorKey, int>, q: map<CursorKey, int>, env: Env)
    requires CursorIn(p, LastSynced(c)) == CursorIn(q, LastSynced(c))
    ensures FinalRun(c, p, env) == FinalRun(c, q, env)
  {
  }

  /** Updating a key and then dropping it is dropping it. */
  lemma DropUpdated<K, V>(m: map<K, V>, k: K, v: V)
    ensures m[k := v] - {k} == m - {k}
  {
  }

  /** How far the cursor still is from the table's last id, counting a cursor past it as one beyond 0. */
  function Distance(cursor: int, lastDbId: int): int
  {
    if cursor > lastDbId then lastDbId + 1 else lastDbId - cursor
  }

  /**
   * One loop turn moves the stored cursor from `p` to `q` as `NextStep`
   * says; the run from `p` is then that turn followed by the run from `q`,
   * and a turn that goes on brings the cursor closer to the last id.
   */
  lemma TurnAdvancesRun(c: Collection, env: Env, p: map<CursorKey, int>, q: map<CursorKey, int>)
    requires ValidTable(env.db(c))
    requires CursorIn(q, LastSynced(c)) ==
             NextStep(c, env.db(c), EffectiveStart(CursorIn(p, LastSynced(c)), env.db(c)), env).cursor
    ensures var t := env.db(c);
            var st := NextStep(c, t, EffectiveStart(CursorIn(p, LastSynced(c)), t), env);
            (st.cont ==> FinalRun(c, p, env).cursor == FinalRun(c, q, env).cursor &&
                         FinalRun(c, p, env).calls == Requests(st.call) + FinalRun(c, q, env).calls &&
                         0 <= Distance(CursorIn(q, LastSynced(c)), LastDbId(t)) < Distance(CursorIn(p, LastSynced(c)), LastDbId(t))) &&
            (!st.cont ==> FinalRun(c, p, env) == RunResult(CursorIn(q, LastSynced(c)), Requests(st.call)))
  {
    var t := env.db(c);
    var s := EffectiveStart(CursorIn(p, LastSynced(c)), t);
    RunStep(c, t, s, env);
    var st := NextStep(c, t, s, env);
    if st.cont {
      assert EffectiveStart(CursorIn(q, LastSynced(c)), t) == st.cursor;
    }
  }

  /** What every table the selector reads guarantees. */
  predicate ValidDb(env: Env)
  {
    forall c: Collection :: ValidTable(env.db(c))
  }

  /** The requests of the runs of `cs`, one collection after the other, each from its cursor in `prefs`. */
  function AllCalls(cs: seq<Collection>, prefs: map<CursorKey, int>, env: Env): seq<Call>
    decreases |cs|
  {
    if cs == [] then [] else AllCalls(cs[..|cs| - 1], prefs, env) + FinalRun(cs[|cs| - 1], prefs, env).calls
  }

  /** Dropping another key from both maps leaves this cursor as it was. */
  lemma CursorUnaffected(p: map<CursorKey, int>, q: map<CursorKey, int>, k: CursorKey, other: CursorKey)
    requires p - {other} == q - {other} && k != other
    ensures CursorIn(p, k) == CursorIn(q, k)
  {
    assert k in p <==> k in p - {other};
    assert k in q <==> k in q - {other};
    if k in p {
      assert p[k] == (p - {other})[k];
    }
    if k in q {
      assert q[k] == (q - {other})[k];
    }
  }

  /** Likewise for the counters. */
  lemma CounterUnaffected(m: map<Collection, int>, n: map<Collection, int>, c: Collection, other: Collection)
    requires m - {other} == n - {other} && c != other
    ensures RemainingIn(m, c) == RemainingIn(n, c)
  {
    assert c in m <==> c in m - {other};
    assert c in n <==> c in n - {other};
    if c in m {
      assert m[c] == (m - {other})[c];
    }
    if c in n {
      assert n[c] == (n - {other})[c];
    }
  }

  /** Processing the `i`-th collection leaves every other collection's cursor and counter, and the profile-store cursor, alone. */
  lemma OtherCollectionsUnaffected(p: map<CursorKey, int>, q: map<CursorKey, int>,
                                   m: map<Collection, int>, n: map<Collection, int>, i: int)
    requires 0 <= i < |Collections|
    requires p - {LastSynced(Collections[i])} == q - {LastSynced(Collections[i])}
    requires m - {Collections[i]} == n - {Collections[i]}
    ensures CursorIn(p, ProfileStoreLastSynced) == CursorIn(q, ProfileStoreLastSynced)
    ensures forall j :: 0 <= j < |Collections| && j != i ==>
              CursorIn(p, LastSynced(Collections[j])) == CursorIn(q, LastSynced(Collections[j])) &&
              RemainingIn(m, Collections[j]) == RemainingIn(n, Collections[j])
  {
    CursorUnaffected(p, q, ProfileStoreLastSynced, LastSynced(Collections[i]));
    forall j | 0 <= j < |Collections| && j != i
      ensures CursorIn(p, LastSynced(Collections[j])) == CursorIn(q, LastSynced(Collections[j]))
      ensures RemainingIn(m, Collections[j]) == RemainingIn(n, Collections[j])
    {
      CollectionsListedOnce(i);
      CollectionsListedOnce(j);
      CursorUnaffected(p, q, LastSynced(Collections[j]), LastSynced(Collections[i]));
      CounterUnaffected(m, n, Collections[j], Collections[i]);
    }
  }

  /* ---------------- queue counter ---------------- */

  /** A counter as read: -1 until it is first set. */
  function RemainingIn(m: map<Collection, int>, c: Collection): int
  {
    if c in m then m[c] else -1
  }

  /** The sum of the counters of `cs`. */
  function Total(m: map<Collection, int>, cs: seq<Collection>): int
    decreases |cs|
  {
    if cs == [] then 0 else RemainingIn(m, cs[0]) + Total(m, cs[1..])
  }

  /** Setting one counter moves the total by exactly the difference. */
  lemma {:induction false} TotalAfterSet(m: map<Collection, int>, cs: seq<Collection>, c: Collection, v: int)
    requires forall i, j :: 0 <= i < j < |cs| ==> cs[i] != cs[j]
    ensures Total(m[c := v], cs) == Total(m, cs) + (if c in cs then v - RemainingIn(m, c) else 0)
    decreases |cs|
  {
    if cs != [] {
      TotalAfterSet(m, cs[1..], c, v);
      if cs[0] == c {
        assert c !in cs[1..] by {
          forall i | 0 <= i < |cs[1..]| ensures cs[1..][i] != c {
            assert cs[1..][i] == cs[i + 1];
          }
        }
      } else {
        assert c in cs <==> c in cs[1..];
      }
    }
  }

  /** With no counter set, every collection counts -1, so the total is minus their number. */
  lemma {:induction false} TotalOfUnset(cs: seq<Collection>)
    ensures Total(map[], cs) == -|cs|
    decreases |cs|
  {
    if cs != [] {
      TotalOfUnset(cs[1..]);
    }
  }

  class QueueCounter {
    var remaining: map<Collection, int>

    constructor ()
      ensures remaining == map[]
      ensures Size() == -13
    {
      remaining := map[];
      new;
      TotalOfUnset(Collections);
    }

    function Remaining(c: Collection): int
      reads this
    {
      RemainingIn(remaining, c)
    }

    /** `size()`: the sum of the thirteen counters. */
    function Size(): int
      reads this
    {
      Total(remaining, Collections)
    }
  }

  /* ---------------- the selector ---------------- */

  class DataSyncSelector {
    var prefs: map<CursorKey, int>
    const queueCounter: QueueCounter

    constructor (stored: map<CursorKey, int>)
      ensures prefs == stored && fresh(queueCounter) && queueCounter.remaining == map[]
    {
      prefs := stored;
      queueCounter := new QueueCounter();
    }

    function Cursor(k: CursorKey): int
      reads this
    {
      CursorIn(prefs, k)
    }

    /** `queueSize()`. */
    function QueueSize(): int
      reads this, queueCounter
    {
      queueCounter.Size()
    }

    /** `confirmLast*IdIfGreater`: the cursor only ever moves up. */
    method ConfirmLastIdIfGreater(c: Collection, lastSynced: int)
      modifies this
      ensures Cursor(LastSynced(c)) == Max(old(Cursor(LastSynced(c))), lastSynced)
      ensures lastSynced > old(Cursor(LastSynced(c))) ==> prefs == old(prefs)[LastSynced(c) := lastSynced]
      ensures lastSynced <= old(Cursor(LastSynced(c))) ==> prefs == old(prefs)
    {
      if lastSynced > CursorIn(prefs, LastSynced(c)) {
        prefs := prefs[LastSynced(c) := lastSynced];
      }
    }

    /** `resetToNextFullSync`: every cursor is dropped except device status, which jumps to the last id. */
    method ResetToNextFullSync(lastDeviceStatusId: Option<int>)
      modifies this
      ensures lastDeviceStatusId.Some? ==> prefs == map[LastSynced(DeviceStatuses) := lastDeviceStatusId.value]
      ensures lastDeviceStatusId.None? ==> prefs == map[]
    {
      // the twelve other collection cursors and the profile-store cursor are every key but one
      var kept := prefs - (set k | k in prefs && k != LastSynced(DeviceStatuses));
      if lastDeviceStatusId.Some? {
        prefs := kept[LastSynced(DeviceStatuses) := lastDeviceStatusId.value];
      } else {
        prefs := kept - {LastSynced(DeviceStatuses)};
      }
    }

    /** `profileReceived` / `confirmLastProfileStore`: the profile-store cursor is set outright. */
    method ProfileReceived(timestamp: int)
      modifies this
      ensures prefs == old(prefs)[ProfileStoreLastSynced := timestamp]
    {
      prefs := prefs[ProfileStoreLastSynced := timestamp];
    }

    /**
     * `processChanged*` for collection `c`: does nothing when paused;
     * otherwise the cursor and the requests are those of `FinalRun`, no
     * other cursor changes, and the collection's counter ends at the
     * distance from the cursor to the table's last id.
     */
    method ProcessChanged(c: Collection, env: Env, paused: bool) returns (calls: seq<Call>)
      requires ValidTable(env.db(c))
      modifies this, queueCounter
      ensures paused ==> prefs == old(prefs) && queueCounter.remaining == old(queueCounter.remaining) && calls == []
      ensures !paused ==> Cursor(LastSynced(c)) == FinalRun(c, old(prefs), env).cursor
      ensures !paused ==> calls == FinalRun(c, old(prefs), env).calls
      ensures prefs - {LastSynced(c)} == old(prefs) - {LastSynced(c)}
      ensures queueCounter.remaining - {c} == old(queueCounter.remaining) - {c}
      ensures !paused ==> queueCounter.Remaining(c) == LastDbId(env.db(c)) - Cursor(LastSynced(c))
    {
      var table := env.db(c);
      var key := LastSynced(c);
      var lastDbId := LastDbId(table);
      ghost var result := FinalRun(c, prefs, env);
      calls := [];
      if paused {
        return;
      }
      var cont := true;
      while cont
        invariant prefs - {key} == old(prefs) - {key}
        invariant queueCounter.remaining - {c} == old(queueCounter.remaining) - {c}
        invariant cont ==> result.cursor == FinalRun(c, prefs, env).cursor &&
                           result.calls == calls + FinalRun(c, prefs, env).calls
        invariant !cont ==> CursorIn(prefs, key) == result.cursor && calls == result.calls &&
                            RemainingIn(queueCounter.remaining, c) == lastDbId - CursorIn(prefs, key)
        decreases cont, Distance(CursorIn(prefs, key), lastDbId)
      {
        var call;
        call, cont := Turn(c, env);
        calls := calls + Requests(call);
      }
    }

    /**
     * One turn of a `processChanged*` loop seen from the whole run: the run
     * from the old cursor is this turn's request followed by the run from
     * the new one, and a turn that goes on brings the cursor closer to the
     * last id.
     */
    method Turn(c: Collection, env: Env) returns (call: Option<Call>, cont: bool)
      requires ValidTable(env.db(c))
      modifies this, queueCounter
      ensures prefs - {LastSynced(c)} == old(prefs) - {LastSynced(c)}
      ensures queueCounter.remaining - {c} == old(queueCounter.remaining) - {c}
      ensures cont ==> FinalRun(c, old(prefs), env).cursor == FinalRun(c, prefs, env).cursor &&
                       FinalRun(c, old(prefs), env).calls == Requests(call) + FinalRun(c, prefs, env).calls &&
                       0 <= Distance(Cursor(LastSynced(c)), LastDbId(env.db(c))) < Distance(old(Cursor(LastSynced(c))), LastDbId(env.db(c)))
      ensures !cont ==> FinalRun(c, old(prefs), env) == RunResult(Cursor(LastSynced(c)), Requests(call)) &&
                        queueCounter.Remaining(c) == LastDbId(env.db(c)) - Cursor(LastSynced(c))
    {
      ghost var before := prefs;
      call, cont := SyncNext(c, env);
      TurnAdvancesRun(c, env, before, prefs);
    }

    /**
     * One turn of a `processChanged*` loop: the cursor is reset when it is
     * past the table's last id, the counter is set to what is left, and the
     * next change is handled as `NextStep` says.
     */
    method SyncNext(c: Collection, env: Env) returns (call: Option<Call>, cont: bool)
      requires ValidTable(env.db(c))
      modifies this, queueCounter
      ensures var t := env.db(c);
              var s := EffectiveStart(old(Cursor(LastSynced(c))), t);
              var st := NextStep(c, t, s, env);
              call == st.call && cont == st.cont && Cursor(LastSynced(c)) == st.cursor &&
              queueCounter.remaining == old(queueCounter.remaining)[c := LastDbId(t) - s]
      ensures prefs - {LastSynced(c)} == old(prefs) - {LastSynced(c)}
      ensures queueCounter.remaining - {c} == old(queueCounter.remaining) - {c}
    {
      var table := env.db(c);
      var key := LastSynced(c);
      var lastDbId := LastDbId(table);
      var startId := CursorIn(prefs, key);
      if startId > lastDbId {
        prefs := prefs[key := 0];
        startId := 0;
      }
      assert startId == EffectiveStart(old(Cursor(LastSynced(c))), table);
      assert CursorIn(prefs, key) == startId;
      assert prefs - {key} == old(prefs) - {key};
      ghost var st := NextStep(c, table, startId, env);
      DropUpdated(queueCounter.remaining, c, lastDbId - startId);
      queueCounter.remaining := queueCounter.remaining[c := lastDbId - startId];
      var pending := Pending(table.changes, startId);
      call := None;
      if pending == [] {
        cont := false;
      } else {
        var ch := pending[0];
        PendingAreNewer(table.changes, startId);
        assert ch.changeId > startId;
        cont := true;
        var d := Decide(c, ch, env);
        if Uploads(d) {
          if env.clientPresent {
            call := Some(Call(Endpoint(c), d == Add, ch.recordId, if c == DeviceStatuses then lastDbId else ch.changeId));
            cont := env.accepts(c, ch);
          } else {
            cont := false;
          }
        }
        if cont {
          ConfirmLastIdIfGreater(c, ch.changeId);
        }
      }
    }

    /**
     * The thirteen `processChanged*` calls of `doUpload`, in order, when not
     * paused: every collection ends at the cursor of its own run, and the
     * requests are those of the runs one after the other.
     */
    method ProcessAll(env: Env) returns (calls: seq<Call>)
      requires ValidDb(env)
      modifies this, queueCounter
      ensures calls == AllCalls(Collections, old(prefs), env)
      ensures forall c: Collection :: CursorIn(prefs, LastSynced(c)) == FinalRun(c, old(prefs), env).cursor
      ensures forall c: Collection :: RemainingIn(queueCounter.remaining, c) == LastDbId(env.db(c)) - CursorIn(prefs, LastSynced(c))
      ensures CursorIn(prefs, ProfileStoreLastSynced) == CursorIn(old(prefs), ProfileStoreLastSynced)
    {
      calls := [];
      for i := 0 to |Collections|
        invariant calls == AllCalls(Collections[..i], old(prefs), env)
        invariant DoneUpTo(i, old(prefs), prefs, queueCounter.remaining, env)
      {
        var c := Collections[i];
        ghost var before := prefs;
        ghost var counters := queueCounter.remaining;
        var more := ProcessChanged(c, env, false);
        ProcessAllStep(i, env, old(prefs), before, prefs, counters, queueCounter.remaining);
        AllCallsStep(i, old(prefs), env);
        calls := calls + more;
      }
      assert Collections[..|Collections|] == Collections;
      forall c: Collection
        ensures CursorIn(prefs, LastSynced(c)) == FinalRun(c, old(prefs), env).cursor
        ensures RemainingIn(queueCounter.remaining, c) == LastDbId(env.db(c)) - CursorIn(prefs, LastSynced(c))
      {
        var j := Position(c);
      }
    }

    /**
     * `doUpload`: when uploading is on (an AAPSClient build or the upload
     * preference) and the client is not paused, the counters are set, the
     * thirteen collections are processed in order, each from its own
     * cursor, and then the profile store; otherwise nothing changes.
     */
    method DoUpload(aapsClient: bool, uploadData: bool, paused: bool, env: Env,
                    lastProfileChange: int, allProfilesValid: bool, hasProfileData: bool,
                    profileAccepted: bool, now: int)
      returns (calls: seq<Call>, profileUploadRequested: bool)
      requires ValidDb(env)
      modifies this, queueCounter
      ensures !((aapsClient || uploadData) && !paused) ==>
                prefs == old(prefs) && queueCounter.remaining == old(queueCounter.remaining) &&
                calls == [] && !profileUploadRequested
      ensures (aapsClient || uploadData) && !paused ==>
                calls == AllCalls(Collections, old(prefs), env) &&
                (forall c: Collection :: Cursor(LastSynced(c)) == FinalRun(c, old(prefs), env).cursor) &&
                (forall c: Collection :: queueCounter.Remaining(c) == LastDbId(env.db(c)) - Cursor(LastSynced(c)))
      ensures (aapsClient || uploadData) && !paused ==>
                var eligible := lastProfileChange != 0 && lastProfileChange > CursorIn(old(prefs), ProfileStoreLastSynced) &&
                                allProfilesValid && hasProfileData;
                profileUploadRequested == (eligible && env.clientPresent) &&
                Cursor(ProfileStoreLastSynced) ==
                  (if eligible && env.clientPresent && profileAccepted then now else CursorIn(old(prefs), ProfileStoreLastSynced))
    {
      calls := [];
      profileUploadRequested := false;
      if !((aapsClient || uploadData) && !paused) {
        return;
      }
      queueCounter.remaining := map c: Collection | c in Collections :: LastDbId(env.db(c)) - CursorIn(prefs, LastSynced(c));
      calls := ProcessAll(env);
      profileUploadRequested := ProcessChangedProfileStore(false, lastProfileChange, allProfilesValid, hasProfileData,
                                                           env.clientPresent, profileAccepted, now);
    }

    /**
     * `processChangedProfileStore`: uploads only when not paused, a local
     * change exists and is newer than the last sync, and every profile is
     * valid; on success the cursor becomes `now`.
     */
    method ProcessChangedProfileStore(paused: bool, lastChange: int, allProfilesValid: bool, hasData: bool,
                                      clientPresent: bool, accepted: bool, now: int)
      returns (uploadRequested: bool)
      modifies this
      ensures var eligible := !paused && lastChange != 0 && lastChange > CursorIn(old(prefs), ProfileStoreLastSynced) &&
                              allProfilesValid && hasData;
              uploadRequested == (eligible && clientPresent) &&
              prefs == (if eligible && clientPresent && accepted then old(prefs)[ProfileStoreLastSynced := now] else old(prefs))
    {
      uploadRequested := false;
      if paused {
        return;
      }
      var lastSync := CursorIn(prefs, ProfileStoreLastSynced);
      if lastChange == 0 {
        return;
      }
      if lastChange > lastSync {
        if !allProfilesValid {
          return;
        }
        if !hasData {
          return;
        }
        if clientPresent {
          uploadRequested := true;
          if accepted {
            ProfileReceived(now);
          }
        }
      }
    }
  }
}
