/**
 * The list of quick-wizard buttons, kept as a JSON array that the app edits
 * in place (insert by shifting right, move, append-or-overwrite, remove) and
 * persists as a preference string.
 */
module QuickWizard {
  import opened Wrappers

  /** One stored button: its guid and the rest of its JSON object, kept as text. */
  datatype Entry = Entry(guid: string, data: string)

  /** A slot of the JSON array: an object, or the null that padding by `put(index, …)` leaves. */
  datatype Slot = Null | Obj(entry: Entry)

  /** A `QuickWizardEntry` built from a slot: the entry and the position it was read from. */
  datatype Positioned = Positioned(entry: Entry, position: int)

  /** Result of a scan that reads slots as objects: reading a null slot throws. */
  datatype Lookup = Hit(found: Positioned) | Miss | NullAt(index: nat)

  /** Result of an edit that can throw (a negative index, a null slot read as an object). */
  datatype Outcome = Ok | Thrown

  function Nulls(n: nat): (r: seq<Slot>)
    ensures |r| == n && forall k :: 0 <= k < n ==> r[k] == Null
  {
    if n == 0 then [] else Nulls(n - 1) + [Null]
  }

  /** `JSONArray.put(index, value)` for a non-negative index: overwrite, or pad with nulls and append. */
  function Put(s: seq<Slot>, i: nat, v: Slot): (r: seq<Slot>)
    ensures |r| == if i < |s| then |s| else i + 1
    ensures r[i] == v
    ensures forall k :: 0 <= k < |s| && k != i ==> r[k] == s[k]
    ensures forall k :: |s| <= k < i ==> r[k] == Null
  {
    if i < |s| then s[i := v] else s + Nulls(i - |s|) + [v]
  }

  /** Insertion at a position within the array. */
  function InsertAt(s: seq<Slot>, pos: nat, v: Slot): seq<Slot>
    requires pos <= |s|
  {
    s[..pos] + [v] + s[pos..]
  }

  /** `JSONArray.remove(index)`: drops the element at a valid index; any other index changes nothing. */
  function RemoveAt(s: seq<Slot>, i: int): (r: seq<Slot>)
    ensures 0 <= i < |s| ==> |r| == |s| - 1
    ensures !(0 <= i < |s|) ==> r == s
  {
    if 0 <= i < |s| then s[..i] + s[i + 1..] else s
  }

  /** Insertion keeps everything before `pos`, puts `v` at `pos` and shifts the rest right by one. */
  lemma InsertAtShifts(s: seq<Slot>, pos: nat, v: Slot)
    requires pos <= |s|
    ensures |InsertAt(s, pos, v)| == |s| + 1
    ensures InsertAt(s, pos, v)[pos] == v
    ensures forall k :: 0 <= k < pos ==> InsertAt(s, pos, v)[k] == s[k]
    ensures forall k :: pos <= k < |s| ==> InsertAt(s, pos, v)[k + 1] == s[k]
    ensures multiset(InsertAt(s, pos, v)) == multiset(s) + multiset{v}
  {
    assert s == s[..pos] + s[pos..];
  }

  /** The array a move from `from` to `to` leaves behind (for a valid `from`). */
  function Moved(s: seq<Slot>, from: nat, to: nat): seq<Slot>
    requires from < |s| && to < |s|
  {
    InsertAt(RemoveAt(s, from), to, s[from])
  }

  /**
   * A move within the array keeps its length and its elements, puts the moved
   * element at `to`, and keeps the relative order of all the others.
   */
  lemma {:induction false} MovePermutes(s: seq<Slot>, from: nat, to: nat)
    requires from < |s| && to < |s|
    ensures |Moved(s, from, to)| == |s|
    ensures Moved(s, from, to)[to] == s[from]
    ensures multiset(Moved(s, from, to)) == multiset(s)
    ensures RemoveAt(Moved(s, from, to), to) == RemoveAt(s, from)
  {
    var rest := RemoveAt(s, from);
    InsertAtShifts(rest, to, s[from]);
    assert s == s[..from] + [s[from]] + s[from + 1..];
    assert multiset(s) == multiset(rest) + multiset{s[from]};
    var m := Moved(s, from, to);
    assert m[..to] == rest[..to];
    assert m[to + 1..] == rest[to..];
    assert rest == rest[..to] + rest[to..];
  }

  /** The array that `addToPos` leaves at `pos`: inserted within the array, padded with nulls past its end. */
  function AddedAt(s: seq<Slot>, pos: nat, v: Slot): (r: seq<Slot>)
    ensures pos <= |s| ==> r == InsertAt(s, pos, v)
    ensures pos > |s| ==> r == Put(s, pos, v)
  {
    if pos <= |s| then InsertAt(s, pos, v) else s + Nulls(pos - |s|) + [v]
  }

  /** The array after the right shift has copied every slot from index `i` on one place to the right. */
  function Shifted(s: seq<Slot>, i: nat): (r: seq<Slot>)
    requires i <= |s|
    ensures |r| == if i < |s| then |s| + 1 else |s|
  {
    if i == |s| then s else s[..i + 1] + s[i..]
  }

  /** One turn of the shift: slot `i - 1` still holds its original element, and copying it to `i` extends the shift by one. */
  lemma ShiftStep(s: seq<Slot>, i: nat)
    requires 1 <= i <= |s|
    ensures |Shifted(s, i)| >= i && Shifted(s, i)[i - 1] == s[i - 1]
    ensures Put(Shifted(s, i), i, s[i - 1]) == Shifted(s, i - 1)
  {
    var r := Put(Shifted(s, i), i, s[i - 1]);
    assert r == s[..i] + s[i - 1..];
  }

  /** Writing the object at `pos` once the shift has reached `pos` (or had nothing to do) gives the `addToPos` array. */
  lemma ShiftedThenPut(s: seq<Slot>, pos: nat, v: Slot)
    ensures var from := if pos < |s| then pos else |s|;
            Put(Shifted(s, from), pos, v) == AddedAt(s, pos, v)
  {
    if pos < |s| {
      assert Put(Shifted(s, pos), pos, v) == s[..pos] + [v] + s[pos..];
    }
  }

  /**
   * Where the right shift reading slots `i - 1`, `i - 2`, ... down to `pos`
   * throws: at the first null slot it reads, or at index -1 when `pos` is
   * negative; `None` when every read succeeds.
   */
  function ShiftFailureFrom(s: seq<Slot>, pos: int, i: nat): (r: Option<int>)
    requires i <= |s|
    ensures r.None? <==> pos >= 0 && forall k :: pos <= k < i ==> s[k].Obj?
    ensures r.Some? ==> pos <= r.value < i && -1 <= r.value
    ensures r.Some? && r.value >= 0 ==> s[r.value] == Null
    ensures r.Some? ==> forall k :: r.value < k < i ==> s[k].Obj?
    decreases i
  {
    if i < pos + 1 then None
    else if i == 0 then Some(-1)
    else if s[i - 1].Null? then Some(i - 1)
    else ShiftFailureFrom(s, pos, i - 1)
  }

  /**
   * Where the shift of `addToPos(pos, …)` on `s` throws: the last null slot
   * at or after `pos`, or -1 for a negative `pos` with no null slot.
   */
  function ShiftFailure(s: seq<Slot>, pos: int): (r: Option<int>)
    ensures r.None? <==> pos >= 0 && forall k :: pos <= k < |s| ==> s[k].Obj?
    ensures r.Some? ==> pos <= r.value < |s| && -1 <= r.value
    ensures r.Some? && r.value >= 0 ==> s[r.value] == Null
    ensures r.Some? ==> forall k :: r.value < k < |s| ==> s[k].Obj?
  {
    ShiftFailureFrom(s, pos, |s|)
  }

  /** The failure point is the only index that fits its description. */
  lemma ShiftFailureIs(s: seq<Slot>, pos: int, j: int)
    requires pos <= j < |s| && -1 <= j
    requires j >= 0 ==> s[j] == Null
    requires forall k :: j < k < |s| ==> s[k].Obj?
    ensures ShiftFailure(s, pos) == Some(j)
  {
  }

  class QuickWizard {
    /** The JSON array of buttons. */
    var storage: seq<Slot>
    /** What the preference holds: the array as it was at the last `save`. */
    var saved: seq<Slot>

    /**
     * Built from the preference's array (`setData` of the parsed preference).
     * The app's `init` then runs `setGuidsForOldEntries`; here the caller
     * does so by calling `SetGuidsForOldEntries` after construction.
     */
    constructor (stored: seq<Slot>)
      ensures storage == stored && saved == stored
    {
      storage := stored;
      saved := stored;
    }

    /** `setGuidsForOldEntries`: gives every entry without a guid a fresh one; a null slot throws. */
    method SetGuidsForOldEntries(freshGuid: nat -> string) returns (outcome: Outcome)
      requires forall i :: freshGuid(i) != ""
      modifies this`storage
      ensures |storage| == |old(storage)|
      ensures outcome == Ok <==> forall k :: 0 <= k < |old(storage)| ==> old(storage)[k].Obj?
      ensures outcome == Ok ==> forall k :: 0 <= k < |storage| ==> storage[k].Obj? && storage[k].entry.guid != ""
      ensures forall k :: 0 <= k < |storage| && old(storage)[k].Obj? && old(storage)[k].entry.guid != "" ==>
                storage[k] == old(storage)[k]
      ensures forall k :: 0 <= k < |storage| && storage[k] != old(storage)[k] ==>
                old(storage)[k].Obj? && old(storage)[k].entry.guid == "" &&
                storage[k] == Obj(old(storage)[k].entry.(guid := freshGuid(k)))
    {
      var i := 0;
      while i < |storage|
        invariant 0 <= i <= |storage| == |old(storage)|
        invariant forall k :: 0 <= k < i ==> old(storage)[k].Obj? && storage[k].Obj? && storage[k].entry.guid != ""
        invariant forall k :: 0 <= k < |storage| && old(storage)[k].Obj? && old(storage)[k].entry.guid != "" ==>
                    storage[k] == old(storage)[k]
        invariant forall k :: 0 <= k < |storage| && storage[k] != old(storage)[k] ==>
                    k < i && old(storage)[k].Obj? && old(storage)[k].entry.guid == "" &&
                    storage[k] == Obj(old(storage)[k].entry.(guid := freshGuid(k)))
      {
        if storage[i].Null? {
          return Thrown;
        }
        var entry := storage[i].entry;
        if entry.guid == "" {
          storage := storage[i := Obj(entry.(guid := freshGuid(i)))];
        }
        i := i + 1;
      }
      return Ok;
    }

    /**
     * Scan in storage order for the first entry satisfying `p`: the first
     * match, no match, or the first null slot met before any match.
     */
    method FirstWhere(p: Entry -> bool) returns (r: Lookup)
      ensures r.Hit? ==> 0 <= r.found.position < |storage| &&
                         storage[r.found.position] == Obj(r.found.entry) && p(r.found.entry)
      ensures r.NullAt? ==> r.index < |storage| && storage[r.index] == Null
      ensures forall k :: 0 <= k < |storage| && (r.Miss? || (r.Hit? && k < r.found.position) || (r.NullAt? && k < r.index)) ==>
                storage[k].Obj? && !p(storage[k].entry)
    {
      var i := 0;
      while i < |storage|
        invariant 0 <= i <= |storage|
        invariant forall k :: 0 <= k < i ==> storage[k].Obj? && !p(storage[k].entry)
      {
        if storage[i].Null? {
          return NullAt(i);
        }
        if p(storage[i].entry) {
          return Hit(Positioned(storage[i].entry, i));
        }
        i := i + 1;
      }
      return Miss;
    }

    /** `getActive()`: the first entry active now (activity is decided by the entry against the clock, a parameter here). */
    method GetActive(isActive: Entry -> bool) returns (r: Lookup)
      ensures r.Hit? ==> 0 <= r.found.position < |storage| &&
                         storage[r.found.position] == Obj(r.found.entry) && isActive(r.found.entry)
      ensures r.NullAt? ==> r.index < |storage| && storage[r.index] == Null
      ensures forall k :: 0 <= k < |storage| && (r.Miss? || (r.Hit? && k < r.found.position) || (r.NullAt? && k < r.index)) ==>
                storage[k].Obj? && !isActive(storage[k].entry)
    {
      r := FirstWhere(isActive);
    }

    /** `get(guid)`: the first entry with this guid. */
    method GetByGuid(guid: string) returns (r: Lookup)
      ensures r.Hit? ==> 0 <= r.found.position < |storage| &&
                         storage[r.found.position] == Obj(r.found.entry) && r.found.entry.guid == guid
      ensures r.NullAt? ==> r.index < |storage| && storage[r.index] == Null
      ensures forall k :: 0 <= k < |storage| && (r.Miss? || (r.Hit? && k < r.found.position) || (r.NullAt? && k < r.index)) ==>
                storage[k].Obj? && storage[k].entry.guid != guid
    {
      r := FirstWhere((e: Entry) => e.guid == guid);
    }

    /** `size()`. */
    function Size(): (n: nat)
      reads this
      ensures n == |storage|
    {
      |storage|
    }

    /** `get(position)`: the entry at a position; a position out of range or a null slot throws. */
    function Get(position: int): (r: Lookup)
      reads this
      ensures r.Hit? <==> 0 <= position < |storage| && storage[position].Obj?
      ensures r.Hit? ==> r.found == Positioned(storage[position].entry, position)
      ensures r.Miss? <==> !(0 <= position < |storage|)
    {
      if 0 <= position < |storage| then
        if storage[position].Obj? then Hit(Positioned(storage[position].entry, position)) else NullAt(position)
      else Miss
    }

    /** `list()`: every entry with its position, in order; a null slot throws. */
    method List() returns (entries: seq<Positioned>, outcome: Outcome)
      ensures outcome == Ok <==> forall k :: 0 <= k < |storage| ==> storage[k].Obj?
      ensures outcome == Ok ==> |entries| == |storage|
      ensures outcome == Ok ==> forall k :: 0 <= k < |storage| ==> entries[k] == Positioned(storage[k].entry, k)
    {
      entries := [];
      var i := 0;
      while i < |storage|
        invariant 0 <= i <= |storage| && |entries| == i
        invariant forall k :: 0 <= k < i ==> storage[k].Obj? && entries[k] == Positioned(storage[k].entry, k)
      {
        if storage[i].Null? {
          return entries, Thrown;
        }
        entries := entries + [Positioned(storage[i].entry, i)];
        i := i + 1;
      }
      outcome := Ok;
    }

    /** `setData(newData)`: replaces the array without persisting it. */
    method SetData(newData: seq<Slot>)
      modifies this`storage
      ensures storage == newData && saved == old(saved)
    {
      storage := newData;
    }

    /** `save()`: persists the current array. */
    method Save()
      modifies this`saved
      ensures saved == storage
    {
      saved := storage;
    }

    /**
     * `addToPos(pos, obj, storage)` (and `removePos`, which is the same code):
     * shifts the tail right one slot at a time from the end, reading each slot
     * with `JSONArray.get`, then writes `obj` at `pos`. Past the end the array
     * is padded with nulls. A read of a null slot, or of index -1 for a
     * negative position, throws and leaves the array partly shifted.
     */
    method AddToPos(pos: int, obj: Slot) returns (outcome: Outcome)
      modifies this`storage
      ensures outcome == Ok <==> ShiftFailure(old(storage), pos).None?
      ensures outcome == Ok ==> 0 <= pos && storage == AddedAt(old(storage), pos, obj)
      ensures outcome == Thrown ==>
                storage == Shifted(old(storage), ShiftFailure(old(storage), pos).value + 1)
    {
      ghost var s := storage;
      var n := |storage|;
      var i := n;
      while i >= pos + 1
        invariant (if pos < 0 then 0 else if pos < n then pos else n) <= i <= n
        invariant storage == Shifted(s, i)
        invariant forall k :: i <= k < n ==> s[k].Obj?
      {
        if i - 1 < 0 {
          ShiftFailureIs(s, pos, -1);
          return Thrown;
        }
        ShiftStep(s, i);
        if storage[i - 1].Null? {
          ShiftFailureIs(s, pos, i - 1);
          return Thrown;
        }
        storage := Put(storage, i, storage[i - 1]);
        i := i - 1;
      }
      ShiftedThenPut(s, pos, obj);
      storage := Put(storage, pos, obj);
      outcome := Ok;
    }

    /** `removePos(pos, obj, array)`, which despite its name inserts exactly as `addToPos` does. */
    method RemovePos(pos: int, obj: Slot) returns (outcome: Outcome)
      modifies this`storage
      ensures outcome == Ok <==> ShiftFailure(old(storage), pos).None?
      ensures outcome == Ok ==> 0 <= pos && storage == AddedAt(old(storage), pos, obj)
      ensures outcome == Thrown ==>
                storage == Shifted(old(storage), ShiftFailure(old(storage), pos).value + 1)
    {
      outcome := AddToPos(pos, obj);
    }

    /**
     * `move(from, to)`: read the element at `from` (throws unless it is an
     * object), remove it, insert it at `to` with `addToPos`, then save; a
     * throw in the insertion leaves the array changed and unsaved.
     */
    method Move(from: int, to: int) returns (outcome: Outcome)
      modifies this
      ensures !(0 <= from < |old(storage)| && old(storage)[from].Obj?) ==>
                outcome == Thrown && storage == old(storage) && saved == old(saved)
      ensures 0 <= from < |old(storage)| && old(storage)[from].Obj? ==>
                var rest := RemoveAt(old(storage), from);
                (outcome == Ok <==> ShiftFailure(rest, to).None?) &&
                (outcome == Ok ==> 0 <= to && storage == AddedAt(rest, to, old(storage)[from]) && saved == storage) &&
                (outcome == Thrown ==> storage == Shifted(rest, ShiftFailure(rest, to).value + 1) && saved == old(saved))
      ensures 0 <= from < |old(storage)| && 0 <= to < |old(storage)| &&
              (forall k :: 0 <= k < |old(storage)| ==> old(storage)[k].Obj?) ==>
                outcome == Ok && storage == Moved(old(storage), from, to) && saved == storage
    {
      if !(0 <= from < |storage|) || storage[from].Null? {
        return Thrown;
      }
      var fromEntry := storage[from];
      storage := RemoveAt(storage, from);
      outcome := AddToPos(to, fromEntry);
      if outcome == Ok {
        Save();
      }
    }

    /** `addOrUpdate(item)`: position -1 appends, any other position is `put` there; then save. */
    method AddOrUpdate(item: Positioned) returns (outcome: Outcome)
      modifies this
      ensures item.position == -1 ==> outcome == Ok && storage == old(storage) + [Obj(item.entry)]
      ensures item.position < -1 ==> outcome == Thrown && storage == old(storage) && saved == old(saved)
      ensures item.position >= 0 ==> outcome == Ok && storage == Put(old(storage), item.position, Obj(item.entry))
      ensures outcome == Ok ==> saved == storage
    {
      if item.position == -1 {
        storage := storage + [Obj(item.entry)];
      } else if item.position < 0 {
        return Thrown;
      } else {
        storage := Put(storage, item.position, Obj(item.entry));
      }
      Save();
      outcome := Ok;
    }

    /** `remove(position)`: drops that element (an invalid position changes nothing), then saves. */
    method Remove(position: int)
      modifies this
      ensures storage == RemoveAt(old(storage), position) && saved == storage
      ensures 0 <= position < |old(storage)| ==>
                storage == old(storage)[..position] + old(storage)[position + 1..]
    {
      storage := RemoveAt(storage, position);
      Save();
    }
  }

  /**
   * Moving the last button of `[a, null, b]` (the array that `addOrUpdate` at
   * position 2 makes from `[a]`) to the front: after the removal the shift
   * reads the null slot and throws, and `b` (a button other than `a`) is no
   * longer in the array.
   */
  lemma MoveAcrossNullSlot(a: Entry, b: Entry)
    requires a != b
    ensures var rest := RemoveAt([Obj(a), Null, Obj(b)], 2);
            ShiftFailure(rest, 0) == Some(1) && Shifted(rest, 2) == [Obj(a), Null] &&
            Obj(b) !in Shifted(rest, 2)
  {
    var rest := RemoveAt([Obj(a), Null, Obj(b)], 2);
    assert rest == [Obj(a), Null];
    ShiftFailureIs(rest, 0, 1);
  }

  /** A shift that stops early has only duplicated slots: every slot of the result was in the array. */
  lemma {:induction false} ShiftedKeepsSlots(s: seq<Slot>, i: nat)
    requires i <= |s|
    ensures forall x :: x in Shifted(s, i) <==> x in s
  {
    if i < |s| {
      assert s == s[..i + 1] + s[i + 1..];
      assert s[i..] == [s[i]] + s[i + 1..];
    }
  }

  /** Updating an existing position overwrites that slot only. */
  lemma UpdateOverwritesOnlyItsSlot(s: seq<Slot>, position: nat, e: Entry)
    requires position < |s|
    ensures |Put(s, position, Obj(e))| == |s|
    ensures forall k :: 0 <= k < |s| ==> Put(s, position, Obj(e))[k] == if k == position then Obj(e) else s[k]
  {
  }
}
