/** Finalized devices (src/devices.rs). The driver's `Finalized<T>` holds no
  * data: it forgets the device and hands out references to one shared static
  * object reinterpreted as a `T`. The model keeps the locked device, which is
  * what every such reference denotes. */
module Devices {
  /** A device locked in its state for the rest of the program. */
  datatype Finalized<T> = Finalized(locked: T)

  /** Finalized::get_ref: the locked device, the one `f` was finalized from. */
  function GetRef<T>(f: Finalized<T>): (r: T)
    ensures f == Finalized(r)
  {
    f.locked
  }

  /** Finalized::new: takes the device without running its destructor; every
    * reference handed out afterwards denotes that device. */
  function New<T>(value: T): (f: Finalized<T>)
    ensures GetRef(f) == value
  {
    Finalized(value)
  }

  /** Deref for Finalized: dereferencing yields the device `f` was finalized
    * from, the same one `get_ref` yields. */
  function Deref<T>(f: Finalized<T>): (r: T)
    ensures f == New(r)
  {
    GetRef(f)
  }

  /** Finalizing loses nothing: two devices finalize alike only when they are
    * the same device, and both ways of reading a finalized device back, `get_ref`
    * and Deref, return the device that was finalized. */
  lemma {:induction false} FinalizeInjective<T>(a: T, b: T)
    ensures New(a) == New(b) ==> a == b
    ensures Deref(New(a)) == GetRef(New(a)) == a
  {
    if New(a) == New(b) {
      assert GetRef(New(a)) == GetRef(New(b));
    }
  }
}
