/** The lazy singleton of SingletoneMethod.cpp. C++ keeps the pointer in a
    static data member; Dafny has no mutable statics, so the program-wide slot
    is an object of its own whose field every caller shares. */
module LazySingleton {

  /** The `Singleton` object; its constructor and `showMessage` only print. */
  class Singleton {
    constructor ()
    {
    }
  }

  /** The static member `Singleton::instance`, with a count of how many
      `Singleton` objects `getInstance` has constructed. */
  class InstanceSlot {
    var instance: Singleton?
    ghost var constructed: nat

    /** The slot is null exactly until the one construction. */
    ghost predicate Valid()
      reads this
    {
      constructed <= 1 && (instance == null <==> constructed == 0)
    }

    /** `Singleton* Singleton::instance = nullptr;` */
    constructor ()
      ensures Valid() && instance == null && constructed == 0
    {
      instance := null;
      constructed := 0;
    }

    /** `getInstance`: construct only when the slot is null, then return the
        stored instance, which is never null. */
    method GetInstance() returns (s: Singleton)
      requires Valid()
      modifies this
      ensures Valid() && instance == s
      ensures old(instance) == null ==> fresh(s) && constructed == old(constructed) + 1
      ensures old(instance) != null ==> s == old(instance) && constructed == old(constructed)
    {
      if instance == null {
        instance := new Singleton();
        constructed := constructed + 1;
      }
      s := instance;
    }
  }

  /** The driver: two calls return the same object, and it was built once. */
  method SingletonDemo() returns (same: bool, ghost constructions: nat)
    ensures same && constructions == 1
  {
    var slot := new InstanceSlot();
    var first := slot.GetInstance();
    var second := slot.GetInstance();
    same := first == second;
    constructions := slot.constructed;
  }
}
