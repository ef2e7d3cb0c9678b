/** `embed-mutex/src/lib.rs`: a cell for statically shared data that can be
    initialised late and is only ever accessed by one guard at a time. The
    `MaybeUninit` slot is an `Option`; callers are assumed to be inside a
    critical section, so every call is one atomic step. */
module EmbedMutex {
  import opened Common

  datatype MutexInnerState = Locked | Uinit | Unlock

  class Mutex<T> {
    var state: MutexInnerState
    var value: Option<T>

    /** The slot holds a value exactly when the cell has been initialised. */
    predicate Valid()
      reads this
    {
      state.Uinit? <==> value.None?
    }

    /** `new`: unlocked, holding `v`. */
    constructor New(v: T)
      ensures Valid() && state == Unlock && value == Some(v)
    {
      state := Unlock;
      value := Some(v);
    }

    /** `new_uinit`: not yet initialised, holding nothing. */
    constructor NewUinit()
      ensures Valid() && state == Uinit && value == None
    {
      state := Uinit;
      value := None;
    }

    /** `init`: store `v` in a cell that is not yet initialised. On any
        other cell the source panics; here `ok` is false and nothing
        changes. */
    method Init(v: T) returns (ok: bool)
      requires Valid()
      modifies this
      ensures Valid()
      ensures ok <==> old(state) == Uinit
      ensures ok ==> state == Unlock && value == Some(v)
      ensures !ok ==> state == old(state) && value == old(value)
    {
      if state == Uinit {
        state := Unlock;
        value := Some(v);
        ok := true;
      } else {
        ok := false;
      }
    }

    /** `try_lock`: never waits. An unlocked cell becomes locked and hands
        out a guard over it; an uninitialised or locked cell
        yields nothing and stays as it is. */
    method TryLock() returns (g: Option<LockGaurd<T>>)
      requires Valid()
      modifies this
      ensures Valid() && value == old(value)
      ensures g.Some? <==> old(state) == Unlock
      ensures g.Some? ==> state == Locked && g.value.cell == this && g.value.Valid()
      ensures g.None? ==> state == old(state)
    {
      if state == Unlock {
        state := Locked;
        var guard := new LockGaurd(this);
        g := Some(guard);
      } else {
        g := None;
      }
    }

    /** `Drop for Mutex`: the value dropped along with the cell; it is
        dropped for an unlocked or locked cell and never for an
        uninitialised one. */
    method Drop() returns (dropped: Option<T>)
      requires Valid()
      ensures dropped.Some? <==> state.Unlock? || state.Locked?
      ensures dropped.Some? ==> dropped == value
    {
      if state.Unlock? || state.Locked? {
        dropped := value;
      } else {
        dropped := None;
      }
    }
  }

  /** `LockGaurd`: a reference to a cell's inner state, usable while that
      cell is locked and holds a value. */
  class LockGaurd<T> {
    const cell: Mutex<T>

    constructor (cell: Mutex<T>)
      ensures this.cell == cell
    {
      this.cell := cell;
    }

    /** The cell is held: locked and initialised. */
    predicate Valid()
      reads cell
    {
      cell.state == Locked && cell.value.Some?
    }

    /** `deref`: the value stored in the cell. */
    function Deref(): (v: T)
      reads cell
      requires Valid()
      ensures cell.value == Some(v)
    {
      cell.value.value
    }

    /** A write through `deref_mut`: the cell now holds `v`. */
    method Put(v: T)
      requires Valid()
      modifies cell
      ensures Valid() && cell.value == Some(v)
    {
      cell.value := Some(v);
    }

    /** `Drop for LockGaurd`: unlock the cell; the value stays. */
    method Drop()
      requires Valid()
      modifies cell
      ensures cell.state == Unlock && cell.value == old(cell.value)
      ensures cell.Valid() && !Valid()
    {
      cell.state := Unlock;
    }
  }

  /** `test_lock_unint`: locking a cell not yet initialised fails. */
  method TestLockUninit() returns (locked: bool)
    ensures !locked
  {
    var a := new Mutex<int>.NewUinit();
    var g := a.TryLock();
    locked := g.Some?;
  }

  /** `test_lock_init`: initialise with 5, then a lock reads 5. */
  method TestLockInit() returns (v: int)
    ensures v == 5
  {
    var a := new Mutex<int>.NewUinit();
    var ok := a.Init(5);
    var g := a.TryLock();
    assert g.Some?;
    v := g.value.Deref();
  }

  /** `test_double_lock`: while a guard is live a second lock fails. */
  method TestDoubleLock() returns (second: bool)
    ensures !second
  {
    var a := new Mutex<int>.NewUinit();
    var ok := a.Init(5);
    var g := a.TryLock();
    assert g.Some?;
    var val := g.value;
    val.Put(val.Deref() + 1);
    var h := a.TryLock();
    second := h.Some?;
  }

  /** `test_lock_release`: a write through a guard persists past its drop,
      and the cell can be locked again. */
  method TestLockRelease() returns (v: int)
    ensures v == 6
  {
    var a := new Mutex<int>.NewUinit();
    var ok := a.Init(5);
    var g := a.TryLock();
    assert g.Some?;
    var val := g.value;
    val.Put(val.Deref() + 1);
    val.Drop();
    var h := a.TryLock();
    assert h.Some?;
    v := h.value.Deref();
  }
}
