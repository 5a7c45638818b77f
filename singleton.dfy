/** The Singleton pattern of scripts/singleton.py, as the code is written.

    The class keeps its one instance in the class attribute `_unique_instance`,
    refuses direct construction, and hands the instance out through
    `get_instance`. Two slips make the accessor never create anything: its
    guard tests `is not None` where `is None` is meant, and `__internal_new__`
    drops the object it allocates instead of returning it. The members below
    model the code as written; the members ending in `Intended` model the
    evidently intended code. */
module SingletonPattern {
  import opened Exceptions
  import opened Output

  /** The line the driver prints when both accessor calls give the same object. */
  const IdenticalLine: string := "a and b is identical."

  /** An instance of `Singleton`; the script gives instances no state. */
  class Instance {
  }

  /** The class object `Singleton` with its class attribute. */
  class Singleton {
    var uniqueInstance: Instance?

    /** Defining the class sets `_unique_instance` to `None`. */
    constructor ()
      ensures uniqueInstance == null
    {
      uniqueInstance := null;
    }

    /** `Singleton()`: `__new__` always raises `NotImplementedError`. */
    method New() returns (r: Result<Instance>)
      ensures r == Raised(NotImplementedError)
    {
      r := Raised(NotImplementedError);
    }

    /** `__internal_new__` as written: it allocates an instance but has no
        `return`, so the caller receives `None`. */
    method InternalNew() returns (r: Instance?)
      ensures r == null
    {
      var discarded := new Instance;
      r := null;
    }

    /** `get_instance` as written: the attribute is overwritten only when it
        already holds an instance, and then with `None`; from any state the
        result is `None` and the attribute ends as `None`. */
    method GetInstance() returns (r: Instance?)
      modifies this
      ensures r == null && uniqueInstance == null
      ensures old(uniqueInstance) == null ==> unchanged(this)
    {
      if uniqueInstance != null {
        uniqueInstance := InternalNew();
      }
      r := uniqueInstance;
    }

    /** The driver: two accessor calls give the same value (`a is b` holds,
        though both are `None`), so the identity line is printed, and then
        direct construction raises. */
    method Demo(out: Stdout) returns (a: Instance?, b: Instance?, x: Result<Instance>)
      modifies this, out
      ensures a == b && a == null
      ensures out.text == old(out.text) + Render([IdenticalLine])
      ensures x == Raised(NotImplementedError)
    {
      a := GetInstance();
      b := GetInstance();
      if a == b {
        out.WriteLine("a and b is identical.");
      }
      x := New();
    }

    /** `__internal_new__` with the missing `return`: a new instance. */
    method InternalNewIntended() returns (r: Instance)
      ensures fresh(r)
    {
      r := new Instance;
    }

    /** `get_instance` with the guard `is None`: the first call creates and
        stores an instance, every later call returns that same instance. */
    method GetInstanceIntended() returns (r: Instance)
      modifies this
      ensures uniqueInstance == r
      ensures old(uniqueInstance) != null ==> r == old(uniqueInstance)
      ensures old(uniqueInstance) == null ==> fresh(r)
    {
      if uniqueInstance == null {
        uniqueInstance := InternalNewIntended();
      }
      r := uniqueInstance;
    }

    /** The driver against the intended accessor: `a is b` holds for a real
        instance, the stored one, which is new if none was stored before. */
    method DemoIntended(out: Stdout) returns (a: Instance, b: Instance)
      modifies this, out
      ensures a == b && a == uniqueInstance
      ensures old(uniqueInstance) == null ==> fresh(a)
      ensures out.text == old(out.text) + Render([IdenticalLine])
    {
      a := GetInstanceIntended();
      b := GetInstanceIntended();
      if a == b {
        out.WriteLine("a and b is identical.");
      }
    }
  }
}
