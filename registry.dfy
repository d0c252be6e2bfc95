/** The registry of named translator classes shared by all engines: a
    dictionary from class name to class that keeps the position of a
    name's first registration, and the search that picks the first
    registered class recognising a header. */
module Registry {
  import opened Wrappers
  import opened Values

  /** Registered (name, class) pairs in dictionary order. */
  type Entries<C> = seq<(string, C)>

  predicate UniqueNames<C>(e: Entries<C>) {
    forall i, j :: 0 <= i < j < |e| ==> e[i].0 != e[j].0
  }

  function NamesOf<C>(e: Entries<C>): (r: seq<string>)
    ensures |r| == |e| && forall i :: 0 <= i < |e| ==> r[i] == e[i].0
  {
    if e == [] then [] else [e[0].0] + NamesOf(e[1..])
  }

  /** The position of `name`, if it is registered. */
  function IndexOf<C>(e: Entries<C>, name: string): (r: Option<nat>)
    ensures r.Some? ==> r.value < |e| && e[r.value].0 == name
    ensures r.Some? ==> forall j :: 0 <= j < r.value ==> e[j].0 != name
    ensures r.None? ==> forall j :: 0 <= j < |e| ==> e[j].0 != name
  {
    if e == [] then None
    else if e[0].0 == name then Some(0)
    else match IndexOf(e[1..], name)
      case None => None
      case Some(i) => Some(i + 1)
  }

  /** `translators[name]`. */
  function Lookup<C>(e: Entries<C>, name: string): Option<C> {
    match IndexOf(e, name)
    case None => None
    case Some(i) => Some(e[i].1)
  }

  /** `translators[name] = c`: a new name goes at the end, a known one is
      rebound where it already stands. */
  function Registered<C>(e: Entries<C>, name: string, c: C): (r: Entries<C>)
    ensures IndexOf(e, name).None? ==> r == e + [(name, c)]
    ensures IndexOf(e, name).Some? ==> r == e[IndexOf(e, name).value := (name, c)]
  {
    match IndexOf(e, name)
    case None => e + [(name, c)]
    case Some(i) => e[i := (name, c)]
  }

  /** After registering, the name maps to the new class, every other name
      keeps its class, names stay unique, and the order of names changes
      only by a new name joining at the end. */
  lemma {:induction false} RegisteredLaws<C>(e: Entries<C>, name: string, c: C)
    requires UniqueNames(e)
    ensures UniqueNames(Registered(e, name, c))
    ensures Lookup(Registered(e, name, c), name) == Some(c)
    ensures forall n :: n != name ==> Lookup(Registered(e, name, c), n) == Lookup(e, n)
    ensures NamesOf(Registered(e, name, c)) ==
      if IndexOf(e, name).Some? then NamesOf(e) else NamesOf(e) + [name]
  {
    var r := Registered(e, name, c);
    assert |r| >= |e|;
    forall i | 0 <= i < |e| ensures r[i].0 == e[i].0 { }
    forall n | n != name ensures Lookup(r, n) == Lookup(e, n) {
      LookupOther(e, r, n, name);
    }
    LookupSelf(e, r, name, c);
    var ns := if IndexOf(e, name).Some? then NamesOf(e) else NamesOf(e) + [name];
    assert |NamesOf(r)| == |ns|;
    forall i | 0 <= i < |ns| ensures NamesOf(r)[i] == ns[i] { }
  }

  lemma LookupOther<C>(e: Entries<C>, r: Entries<C>, n: string, name: string)
    requires n != name
    requires |e| <= |r| <= |e| + 1
    requires forall i :: 0 <= i < |e| ==> r[i].0 == e[i].0
    requires forall i :: 0 <= i < |e| && e[i].0 != name ==> r[i] == e[i]
    requires |r| == |e| + 1 ==> r[|e|].0 == name
    ensures Lookup(r, n) == Lookup(e, n)
  {
    match IndexOf(e, n)
    case None =>
      assert forall j :: 0 <= j < |r| ==> r[j].0 != n;
    case Some(i) =>
      assert r[i] == e[i];
      assert forall j :: 0 <= j < i ==> r[j].0 != n;
  }

  lemma LookupSelf<C>(e: Entries<C>, r: Entries<C>, name: string, c: C)
    requires UniqueNames(e)
    requires r == Registered(e, name, c)
    ensures Lookup(r, name) == Some(c)
  {
    match IndexOf(e, name)
    case None =>
      assert r[|e|] == (name, c);
      assert forall j :: 0 <= j < |e| ==> r[j].0 != name;
    case Some(i) =>
      assert r[i] == (name, c);
      assert forall j :: 0 <= j < i ==> r[j].0 != name;
  }

  /** The position of the first class, from `from` on, whose recogniser
      accepts; a recogniser that raises stops the search with its error,
      and when all decline the result is ValueError. */
  function Search<C>(e: Entries<C>, accepts: C -> Result<bool>, from: nat): (r: Result<nat>)
    requires from <= |e|
    decreases |e| - from
  {
    if from == |e| then Err(ValueError("None of the registered translation classes understood this header"))
    else match accepts(e[from].1)
      case Err(x) => Err(x)
      case Ok(true) => Ok(from)
      case Ok(false) => Search(e, accepts, from + 1)
  }

  /** `determine_translator`: the first registered class that accepts. */
  function Select<C>(e: Entries<C>, accepts: C -> Result<bool>): Result<C> {
    match Search(e, accepts, 0)
    case Err(x) => Err(x)
    case Ok(i) => if i < |e| then Ok(e[i].1) else Err(IndexError(""))
  }

  /** What the search finds: an accepting class with only declining
      classes before it, or the first recogniser error after only
      declining classes, or ValueError when every class declines. */
  lemma {:induction false} SearchMeaning<C>(e: Entries<C>, accepts: C -> Result<bool>, from: nat)
    requires from <= |e|
    ensures var r := Search(e, accepts, from);
      r.Ok? ==>
        from <= r.value < |e| && accepts(e[r.value].1) == Ok(true) &&
        forall j :: from <= j < r.value ==> accepts(e[j].1) == Ok(false)
    ensures (forall j :: from <= j < |e| ==> accepts(e[j].1) == Ok(false)) ==>
      Search(e, accepts, from).Err? && Search(e, accepts, from).error.ValueError?
    ensures Search(e, accepts, from).Err? ==>
      forall j :: from <= j < |e| && accepts(e[j].1) == Ok(true) ==>
        exists k :: from <= k < j && accepts(e[k].1).Err?
    decreases |e| - from
  {
    if from < |e| {
      SearchMeaning(e, accepts, from + 1);
    }
  }

  /** When every class before position `i` declines and the class at `i`
      accepts, that class is selected. */
  lemma SelectFirst<C>(e: Entries<C>, accepts: C -> Result<bool>, i: nat)
    requires i < |e| && accepts(e[i].1) == Ok(true)
    requires forall j :: 0 <= j < i ==> accepts(e[j].1) == Ok(false)
    ensures Select(e, accepts) == Ok(e[i].1)
  {
    SearchMeaning(e, accepts, 0);
  }

  /** The registrations made as `classes` are defined in turn: each
      class whose (possibly inherited) name is set registers under it. */
  function Registrations<C>(e: Entries<C>, classes: seq<C>, nameOf: C -> Option<string>): Entries<C>
    decreases |classes|
  {
    if classes == [] then e
    else
      var after := match nameOf(classes[0]) case None => e case Some(n) => Registered(e, n, classes[0]);
      Registrations(after, classes[1..], nameOf)
  }

  /** Registrations depend only on the names the classes carry. */
  lemma {:induction false} RegistrationsAgree<C>(e: Entries<C>, classes: seq<C>, f: C -> Option<string>,
                                                 g: C -> Option<string>)
    requires forall i :: 0 <= i < |classes| ==> f(classes[i]) == g(classes[i])
    ensures Registrations(e, classes, f) == Registrations(e, classes, g)
    decreases |classes|
  {
    if classes != [] {
      var after := match f(classes[0]) case None => e case Some(n) => Registered(e, n, classes[0]);
      RegistrationsAgree(after, classes[1..], f, g);
    }
  }

  /** Defining a class without a name registers nothing. */
  lemma SkipsUnnamed<C>(e: Entries<C>, classes: seq<C>, nameOf: C -> Option<string>)
    requires classes != [] && nameOf(classes[0]).None?
    ensures Registrations(e, classes, nameOf) == Registrations(e, classes[1..], nameOf)
  {
  }

  /** Defining a class under a name not yet registered appends it. */
  lemma RegistersFresh<C>(e: Entries<C>, classes: seq<C>, nameOf: C -> Option<string>, n: string, c: C)
    requires classes != [] && classes[0] == c && nameOf(c) == Some(n)
    requires forall i :: 0 <= i < |e| ==> e[i].0 != n
    ensures Registrations(e, classes, nameOf) == Registrations(e + [(n, c)], classes[1..], nameOf)
  {
  }

  /** Defining one more class registers it after the others. */
  lemma {:induction false} RegistrationsAppend<C>(e: Entries<C>, classes: seq<C>, c: C, nameOf: C -> Option<string>)
    ensures Registrations(e, classes + [c], nameOf) ==
      match nameOf(c)
      case None => Registrations(e, classes, nameOf)
      case Some(n) => Registered(Registrations(e, classes, nameOf), n, c)
    decreases |classes|
  {
    if classes == [] {
      assert [c][1..] == [];
    } else {
      var after := match nameOf(classes[0]) case None => e case Some(n) => Registered(e, n, classes[0]);
      assert (classes + [c])[1..] == classes[1..] + [c];
      RegistrationsAppend(after, classes[1..], c, nameOf);
    }
  }

  /** The shared dictionary of registered classes. */
  class Registry<C> {
    var entries: Entries<C>

    constructor()
      ensures entries == []
    {
      entries := [];
    }

    method Register(name: string, c: C)
      modifies this
      ensures entries == Registered(old(entries), name, c)
    {
      entries := Registered(entries, name, c);
    }

    /** The search loop of `determine_translator`. */
    method Determine(accepts: C -> Result<bool>) returns (r: Result<C>)
      ensures r == Select(entries, accepts)
    {
      var i := 0;
      while i < |entries|
        invariant 0 <= i <= |entries|
        invariant Search(entries, accepts, 0) == Search(entries, accepts, i)
      {
        match accepts(entries[i].1)
        case Err(x) => return Err(x);
        case Ok(b) =>
          if b { return Ok(entries[i].1); }
        i := i + 1;
      }
      return Err(ValueError("None of the registered translation classes understood this header"));
    }

    /** The registrations made as `classes` are defined in turn. */
    method RegisterAll(classes: seq<C>, nameOf: C -> Option<string>)
      modifies this
      ensures entries == Registrations(old(entries), classes, nameOf)
    {
      var i := 0;
      while i < |classes|
        invariant 0 <= i <= |classes|
        invariant Registrations(entries, classes[i..], nameOf) == Registrations(old(entries), classes, nameOf)
      {
        assert classes[i..][1..] == classes[i + 1..];
        match nameOf(classes[i]) {
          case None =>
          case Some(n) => Register(n, classes[i]);
        }
        i := i + 1;
      }
      assert classes[i..] == [];
    }
  }
}
