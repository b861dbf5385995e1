/** The shared instance of `TokenService.__new__` as its subclasses see
    it.  `__new__` tests `cls._instance`, a class attribute: a class that
    has not set its own reads its nearest ancestor's, and the assignment
    sets it on the class being built.  `type.__call__` then runs
    `cls.__init__` only when the object handed back is an instance of
    `cls`.  So a `ConfigService()` built after a `TokenService()` is that
    bare `TokenService`, with no `_base_url` and no `get_headers`. */
module SharedInstance {
  import opened PyJson
  import Upstream

  /** The classes of the chain `TokenService` <- `ConfigService` <-
      `StockOrdersService` (the report services hold a `ConfigService`). */
  datatype Class = TokenServiceClass | ConfigServiceClass | StockOrdersServiceClass

  function Parent(c: Class): Option<Class> {
    match c
    case TokenServiceClass => None
    case ConfigServiceClass => Some(TokenServiceClass)
    case StockOrdersServiceClass => Some(ConfigServiceClass)
  }

  function Depth(c: Class): nat {
    match c
    case TokenServiceClass => 0
    case ConfigServiceClass => 1
    case StockOrdersServiceClass => 2
  }

  /** `issubclass(c, d)`: `d` is `c` or one of its ancestors. */
  predicate IsSubclass(c: Class, d: Class)
    decreases Depth(c)
  {
    c == d || (Parent(c).Some? && Depth(Parent(c).value) < Depth(c) && IsSubclass(Parent(c).value, d))
  }

  /** The classes that have assigned `_instance`, each to the class of the
      object it holds. */
  type Registry = map<Class, Class>

  /** `cls._instance`: the class's own value, else the nearest ancestor's,
      else the `None` that `TokenService` declares. */
  function InstanceOf(reg: Registry, c: Class): (r: Option<Class>)
    ensures c in reg ==> r == Some(reg[c])
    ensures r.Some? ==> exists d :: IsSubclass(c, d) && d in reg && reg[d] == r.value
    ensures (forall d :: IsSubclass(c, d) ==> d !in reg) ==> r.None?
    decreases Depth(c)
  {
    if c in reg then Some(reg[c])
    else if Parent(c).None? then None
    else
      assert Depth(Parent(c).value) < Depth(c) by { assert Depth(Parent(c).value) + 1 == Depth(c); }
      InstanceOf(reg, Parent(c).value)
  }

  /** What `c()` gave: the registry after it, the class of the object
      handed back, and whether `c.__init__` ran on it. */
  datatype Built = Built(reg: Registry, obj: Class, initRan: bool)

  /** `c()`: a new object of class `c`, registered on `c` and initialised,
      when `c._instance` is unset; otherwise the object found, initialised
      again only when it is an instance of `c`. */
  function Construct(reg: Registry, c: Class): (b: Built)
    ensures b.initRan <==> IsSubclass(b.obj, c)
    ensures InstanceOf(reg, c).None? ==> b == Built(reg[c := c], c, true)
    ensures InstanceOf(reg, c).Some? ==> b.reg == reg && b.obj == InstanceOf(reg, c).value
  {
    match InstanceOf(reg, c)
    case None =>
      assert IsSubclass(c, c);
      Built(reg[c := c], c, true)
    case Some(o) => Built(reg, o, IsSubclass(o, c))
  }

  /** Every object registered on a class was built by that class's own
      constructor, so it is of that class and carries what its `__init__`
      sets. */
  predicate Registered(reg: Registry) {
    forall c :: c in reg ==> reg[c] == c
  }

  /** The attributes `TokenService.__init__` sets. */
  const TokenAttributes: set<string> := {"_initialized", "_token_data", "_cache_path"}

  /** `obj.<attribute>` on the object handed back: a `ConfigService` (or
      subclass) object carries the configuration's attributes; a bare
      `TokenService` carries only its own. */
  function Attribute(b: Built, attribute: string): (r: Eval<string>)
    ensures IsSubclass(b.obj, ConfigServiceClass) ==> r == Upstream.ConfigAttribute(attribute)
    ensures !IsSubclass(b.obj, ConfigServiceClass) ==> (r.Ok? <==> attribute in TokenAttributes)
  {
    if IsSubclass(b.obj, ConfigServiceClass) then Upstream.ConfigAttribute(attribute)
    else if attribute in TokenAttributes then Ok("")
    else Raised
  }

  /** Construction keeps every registered object one of its own class. */
  lemma ConstructRegistered(reg: Registry, c: Class)
    requires Registered(reg)
    ensures Registered(Construct(reg, c).reg)
  {
  }

  /** Once a `TokenService()` exists, `ConfigService()` hands back that
      bare `TokenService` without running `ConfigService.__init__`, so
      `_base_url` cannot be read and the corrected report URL raises too. */
  lemma ConfigAfterTokenLacksBaseUrl()
    ensures var t := Construct(map[], TokenServiceClass);
      var c := Construct(t.reg, ConfigServiceClass);
      c.obj == TokenServiceClass && !c.initRan && Attribute(c, "_base_url") == Raised
    ensures var t := Construct(map[], TokenServiceClass);
      var s := Construct(t.reg, StockOrdersServiceClass);
      s.obj == TokenServiceClass && !s.initRan && Attribute(s, "_base_url") == Raised
  {
    var t := Construct(map[], TokenServiceClass);
    assert t.reg == map[TokenServiceClass := TokenServiceClass];
    assert InstanceOf(t.reg, ConfigServiceClass) == Some(TokenServiceClass);
    assert InstanceOf(t.reg, StockOrdersServiceClass) == Some(TokenServiceClass);
  }

  /** `ConfigService()` gives an object carrying `_base_url` exactly when
      a configuration is already registered on `ConfigService`, or no
      `TokenService()` has been built at all. */
  lemma ConfigCarriesBaseUrl(reg: Registry)
    requires Registered(reg)
    ensures var c := Construct(reg, ConfigServiceClass);
      Attribute(c, "_base_url") == Ok(Upstream.BaseUrl) <==> ConfigServiceClass in reg || TokenServiceClass !in reg
  {
    var c := Construct(reg, ConfigServiceClass);
    if ConfigServiceClass in reg {
      assert c.obj == ConfigServiceClass;
      assert IsSubclass(ConfigServiceClass, ConfigServiceClass);
    } else if TokenServiceClass in reg {
      assert reg[TokenServiceClass] == TokenServiceClass;
      assert c.obj == TokenServiceClass;
      assert !IsSubclass(TokenServiceClass, ConfigServiceClass);
    } else {
      assert InstanceOf(reg, ConfigServiceClass).None?;
    }
  }
}
