/**
 * Which class methods the profiler wraps (`Profiler._get_functions` in
 * albumentations/profiling.py) and the class attribute table it patches.
 *
 * The library's class registry is an explicit table from (class, method name)
 * to the function found there; `hasattr`/`getattr` read it and `setattr`
 * writes it. Inherited methods are assumed already resolved into the table.
 */
module Discovery {

  /** A transform class; `fullName` is what `get_class_fullname()` returns for it. */
  datatype TransformClass = TransformClass(fullName: string, id: nat)

  /** The attribute `name` of class `cls`. */
  datatype Slot = Slot(cls: TransformClass, name: string)

  /** A function stored in a class attribute: the library's own code, or a timing wrapper around one. */
  datatype Fn = Plain(id: nat) | Profiled(key: string, inner: Fn)

  /** One value of `_original_functions`: `(cls, func_name, func)`. */
  datatype Entry = Entry(cls: TransformClass, funcName: string, func: Fn) {
    /** The attribute this entry was read from. */
    function Attr(): Slot { Slot(cls, funcName) }
  }

  /** The method names the profiler looks for on every class, in the order it tries them. */
  const WRAPPED_METHOD_NAMES: seq<string> := [
    "__call__", "apply", "apply_to_bbox", "apply_to_bboxes",
    "apply_to_keypoint", "apply_to_keypoints", "apply_to_mask", "apply_to_masks"
  ]

  /** The key `f"{cls_name}.{name}"`, which is also the name of every record the wrapper makes. */
  function KeyOf(cls: TransformClass, name: string): string
  {
    cls.fullName + "." + name
  }

  /** The attribute table of the library's classes, which the profiler patches in place. */
  class Registry {
    var attrs: map<Slot, Fn>

    constructor (attrs: map<Slot, Fn>)
      ensures this.attrs == attrs
    {
      this.attrs := attrs;
    }

    /**
     * `for name, (cls, func_name, func) in fns.items(): setattr(cls, func_name, ...)`,
     * storing a wrapper named `name` around `func` when `wrap` holds and `func`
     * itself otherwise. The entries name distinct attributes, so the order of
     * the items does not matter.
     */
    method Patch(fns: map<string, Entry>, wrap: bool)
      requires Keyed(fns, attrs)
      modifies this
      ensures attrs == PatchKeys(old(attrs), fns, fns.Keys, wrap)
      ensures Keyed(fns, attrs)
    {
      var todo := fns.Keys;
      while todo != {}
        invariant todo <= fns.Keys
        invariant attrs == PatchKeys(old(attrs), fns, fns.Keys - todo, wrap)
        decreases |todo|
      {
        var name :| name in todo;
        var e := fns[name];
        PatchStep(old(attrs), fns, fns.Keys - todo, wrap, name);
        attrs := attrs[e.Attr() := Target(name, e, wrap)];
        assert fns.Keys - (todo - {name}) == (fns.Keys - todo) + {name};
        todo := todo - {name};
      }
    }
  }

  /** `res[key] = cls, name, getattr(cls, name)` when `hasattr(cls, name)`. */
  function Record(acc: map<string, Entry>, cls: TransformClass, name: string, attrs: map<Slot, Fn>): map<string, Entry>
  {
    if Slot(cls, name) in attrs then acc[KeyOf(cls, name) := Entry(cls, name, attrs[Slot(cls, name)])] else acc
  }

  /** The inner loop of `_get_functions` over `names` for one class. */
  function DiscoverMethods(acc: map<string, Entry>, cls: TransformClass, names: seq<string>, attrs: map<Slot, Fn>): map<string, Entry>
  {
    if names == [] then acc
    else Record(DiscoverMethods(acc, cls, names[..|names| - 1], attrs), cls, names[|names| - 1], attrs)
  }

  /** The dictionary `_get_functions` returns for the classes `transforms`. */
  function Discover(transforms: seq<TransformClass>, attrs: map<Slot, Fn>): map<string, Entry>
  {
    if transforms == [] then map[]
    else DiscoverMethods(Discover(transforms[..|transforms| - 1], attrs), transforms[|transforms| - 1], WRAPPED_METHOD_NAMES, attrs)
  }

  /**
   * `Profiler._get_functions`: for every class and every wrapped method name it
   * has, record the class, the name and the function found there under the key
   * `"<class full name>.<method name>"`; a later class with the same full name
   * replaces the entries of an earlier one.
   */
  method GetFunctions(transforms: seq<TransformClass>, attrs: map<Slot, Fn>) returns (res: map<string, Entry>)
    ensures res == Discover(transforms, attrs)
  {
    res := map[];
    for i := 0 to |transforms|
      invariant res == Discover(transforms[..i], attrs)
    {
      var cls := transforms[i];
      for j := 0 to |WRAPPED_METHOD_NAMES|
        invariant res == DiscoverMethods(Discover(transforms[..i], attrs), cls, WRAPPED_METHOD_NAMES[..j], attrs)
      {
        var name := WRAPPED_METHOD_NAMES[j];
        assert WRAPPED_METHOD_NAMES[..j + 1][..j] == WRAPPED_METHOD_NAMES[..j];
        if Slot(cls, name) in attrs {
          res := res[KeyOf(cls, name) := Entry(cls, name, attrs[Slot(cls, name)])];
        }
      }
      assert WRAPPED_METHOD_NAMES[..|WRAPPED_METHOD_NAMES|] == WRAPPED_METHOD_NAMES;
      assert transforms[..i + 1][..i] == transforms[..i];
    }
    assert transforms[..|transforms|] == transforms;
  }

  /**
   * Every entry sits under the key built from its own class and method name,
   * names an attribute that exists, and holds the function found there.
   */
  ghost predicate Sound(fns: map<string, Entry>, attrs: map<Slot, Fn>)
  {
    Keyed(fns, attrs) && forall k :: k in fns ==> fns[k].func == attrs[fns[k].Attr()]
  }

  /** Every entry sits under the key built from its own class and method name and names an attribute that exists. */
  ghost predicate Keyed(fns: map<string, Entry>, attrs: map<Slot, Fn>)
  {
    KeysMatch(fns) && Attrs(fns) <= attrs.Keys
  }

  /** Every entry sits under the key built from its own class and method name. */
  ghost predicate KeysMatch(fns: map<string, Entry>)
  {
    forall k :: k in fns ==> k == KeyOf(fns[k].cls, fns[k].funcName)
  }

  /** The attributes the entries were read from. */
  ghost function Attrs(fns: map<string, Entry>): set<Slot>
  {
    set k | k in fns :: fns[k].Attr()
  }

  lemma {:induction false} DiscoverMethodsSound(acc: map<string, Entry>, cls: TransformClass, names: seq<string>, attrs: map<Slot, Fn>)
    requires Sound(acc, attrs)
    ensures Sound(DiscoverMethods(acc, cls, names, attrs), attrs)
    ensures forall k :: k in DiscoverMethods(acc, cls, names, attrs) ==>
      (k in acc && DiscoverMethods(acc, cls, names, attrs)[k] == acc[k])
      || (DiscoverMethods(acc, cls, names, attrs)[k].cls == cls && DiscoverMethods(acc, cls, names, attrs)[k].funcName in names)
  {
    if names != [] {
      DiscoverMethodsSound(acc, cls, names[..|names| - 1], attrs);
    }
  }

  /**
   * Soundness of discovery: every entry names one of the given classes, one of
   * the wrapped method names, an attribute that exists and the function found
   * there, under its own key.
   */
  lemma {:induction false} DiscoverSound(transforms: seq<TransformClass>, attrs: map<Slot, Fn>)
    ensures Sound(Discover(transforms, attrs), attrs)
    ensures forall k :: k in Discover(transforms, attrs) ==>
      Discover(transforms, attrs)[k].cls in transforms && Discover(transforms, attrs)[k].funcName in WRAPPED_METHOD_NAMES
  {
    if transforms != [] {
      var init := transforms[..|transforms| - 1];
      DiscoverSound(init, attrs);
      DiscoverMethodsSound(Discover(init, attrs), transforms[|transforms| - 1], WRAPPED_METHOD_NAMES, attrs);
      forall k | k in Discover(transforms, attrs)
        ensures Discover(transforms, attrs)[k].cls in transforms
      {
        var e := Discover(transforms, attrs)[k];
        if k in Discover(init, attrs) && e == Discover(init, attrs)[k] {
          assert e.cls in init;
        }
      }
    }
  }

  lemma {:induction false} DiscoverMethodsKeeps(acc: map<string, Entry>, cls: TransformClass, names: seq<string>, attrs: map<Slot, Fn>)
    ensures acc.Keys <= DiscoverMethods(acc, cls, names, attrs).Keys
    ensures forall m :: m in names && Slot(cls, m) in attrs ==> KeyOf(cls, m) in DiscoverMethods(acc, cls, names, attrs)
  {
    if names != [] {
      DiscoverMethodsKeeps(acc, cls, names[..|names| - 1], attrs);
      forall m | m in names && Slot(cls, m) in attrs
        ensures KeyOf(cls, m) in DiscoverMethods(acc, cls, names, attrs)
      {
        if m != names[|names| - 1] {
          assert m in names[..|names| - 1];
        }
      }
    }
  }

  /** Completeness of discovery: every wrapped method name that a given class has gets a key. */
  lemma {:induction false} DiscoverComplete(transforms: seq<TransformClass>, attrs: map<Slot, Fn>)
    ensures forall c, m :: c in transforms && m in WRAPPED_METHOD_NAMES && Slot(c, m) in attrs ==>
      KeyOf(c, m) in Discover(transforms, attrs)
  {
    if transforms != [] {
      var init := transforms[..|transforms| - 1];
      DiscoverComplete(init, attrs);
      DiscoverMethodsKeeps(Discover(init, attrs), transforms[|transforms| - 1], WRAPPED_METHOD_NAMES, attrs);
      forall c, m | c in transforms && m in WRAPPED_METHOD_NAMES && Slot(c, m) in attrs
        ensures KeyOf(c, m) in Discover(transforms, attrs)
      {
        if c != transforms[|transforms| - 1] {
          assert c in init;
        }
      }
    }
  }

  /** The function the patch loop stores for `key`: the wrapper when installing, the original when restoring. */
  function Target(key: string, e: Entry, wrap: bool): Fn
  {
    if wrap then Profiled(key, e.func) else e.func
  }

  /** `attrs` after the patch loop has handled the keys `done` of `fns`. */
  function PatchKeys(attrs: map<Slot, Fn>, fns: map<string, Entry>, done: set<string>, wrap: bool): (r: map<Slot, Fn>)
    ensures r.Keys == attrs.Keys
    ensures done == {} ==> r == attrs
  {
    map s | s in attrs ::
      var k := KeyOf(s.cls, s.name);
      if k in done && k in fns && fns[k].Attr() == s then Target(k, fns[k], wrap) else attrs[s]
  }

  /** The table after `Profiler.__init__` installed a wrapper for every entry. */
  function Installed(attrs: map<Slot, Fn>, fns: map<string, Entry>): map<Slot, Fn>
  {
    PatchKeys(attrs, fns, fns.Keys, true)
  }

  /** The table after `Profiler.__del__` put every entry's original function back. */
  function Restored(attrs: map<Slot, Fn>, fns: map<string, Entry>): map<Slot, Fn>
  {
    PatchKeys(attrs, fns, fns.Keys, false)
  }

  /** One `setattr(cls, func_name, ...)` of the patch loop extends the handled keys by one. */
  lemma PatchStep(attrs: map<Slot, Fn>, fns: map<string, Entry>, done: set<string>, wrap: bool, k: string)
    requires Keyed(fns, attrs) && k in fns
    ensures PatchKeys(attrs, fns, done + {k}, wrap) == PatchKeys(attrs, fns, done, wrap)[fns[k].Attr() := Target(k, fns[k], wrap)]
  {
  }

  /**
   * Installing the wrappers for the discovered entries and then restoring them
   * gives back exactly the table discovery started from.
   */
  lemma RestoreUndoesInstall(attrs: map<Slot, Fn>, fns: map<string, Entry>)
    requires Sound(fns, attrs)
    ensures Restored(Installed(attrs, fns), fns) == attrs
  {
  }

  /** Installing changes exactly the attributes of the discovered entries, each to a wrapper named by its key around the original. */
  lemma InstalledWraps(attrs: map<Slot, Fn>, fns: map<string, Entry>)
    requires Sound(fns, attrs)
    ensures Installed(attrs, fns).Keys == attrs.Keys
    ensures forall k :: k in fns ==> Installed(attrs, fns)[fns[k].Attr()] == Profiled(k, attrs[fns[k].Attr()])
    ensures forall s :: s in attrs && (forall k :: k in fns ==> fns[k].Attr() != s) ==> Installed(attrs, fns)[s] == attrs[s]
  {
  }
}
