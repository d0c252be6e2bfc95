/** The class build step shared by every engine: when a translator class
    is defined, its trivial-map entries and then its constant-map entries
    become resolvers that replace whatever the class and its ancestors
    defined for the same property.  A class attribute the class body does
    not declare is inherited from the parent class. */
module ClassBuild {
  import opened Wrappers

  /** A class attribute as written in a class body: declared there, or
      left to be inherited. */
  datatype Decl<T> = Inherit | Declare(value: T)

  function Effective<T>(d: Decl<T>, inherited: T): T {
    match d
    case Inherit => inherited
    case Declare(v) => v
  }

  /** A class body: its `name`, its trivial and constant maps (each
      possibly inherited) and the resolvers its methods define. */
  datatype ClassDef<R, S, K> = ClassDef(
    name: Decl<Option<string>>,
    trivialMap: Decl<map<string, S>>,
    constMap: Decl<map<string, K>>,
    methods: map<string, R>)

  /** A class after its build step: the attribute values it sees and the
      resolver each property name is bound to. */
  datatype ClassState<R, S, K> = ClassState(
    name: Option<string>,
    trivialMap: map<string, S>,
    constMap: map<string, K>,
    table: map<string, R>)

  /** The build step.  The maps used are the class's own or, when it
      declares none, the inherited ones, which are then installed again on
      the subclass. */
  function Build<R, S, K>(parent: ClassState<R, S, K>, def: ClassDef<R, S, K>,
                          trivial: S -> R, constant: K -> R): (c: ClassState<R, S, K>)
    ensures c.name == Effective(def.name, parent.name)
    ensures c.trivialMap == Effective(def.trivialMap, parent.trivialMap)
    ensures c.constMap == Effective(def.constMap, parent.constMap)
    ensures c.table.Keys == parent.table.Keys + def.methods.Keys + c.trivialMap.Keys + c.constMap.Keys
    ensures forall p :: p in c.constMap ==> c.table[p] == constant(c.constMap[p])
    ensures forall p :: p in c.trivialMap && p !in c.constMap ==> c.table[p] == trivial(c.trivialMap[p])
    ensures forall p :: p in def.methods && p !in c.trivialMap && p !in c.constMap ==> c.table[p] == def.methods[p]
    ensures forall p :: p in parent.table && p !in def.methods && p !in c.trivialMap && p !in c.constMap ==>
      c.table[p] == parent.table[p]
  {
    var tm := Effective(def.trivialMap, parent.trivialMap);
    var cm := Effective(def.constMap, parent.constMap);
    ClassState(Effective(def.name, parent.name), tm, cm,
      parent.table + def.methods + (map p | p in tm :: trivial(tm[p])) + (map p | p in cm :: constant(cm[p])))
  }

  /** A built class binds no property outside `ks` when neither its
      parent nor its body names one. */
  lemma KeysWithin<R, S, K>(parent: ClassState<R, S, K>, def: ClassDef<R, S, K>,
                            trivial: S -> R, constant: K -> R, ks: set<string>)
    requires parent.table.Keys <= ks && def.methods.Keys <= ks
    requires Effective(def.trivialMap, parent.trivialMap).Keys <= ks
    requires Effective(def.constMap, parent.constMap).Keys <= ks
    ensures Build(parent, def, trivial, constant).table.Keys <= ks
  {
  }

  /** What one property of a built class resolves to, one rule at a
      time: a constant entry, else a trivial entry, else the body's own
      method, else the parent's resolver. */
  lemma ConstEntry<R, S, K>(parent: ClassState<R, S, K>, def: ClassDef<R, S, K>,
                            trivial: S -> R, constant: K -> R, p: string)
    requires p in Effective(def.constMap, parent.constMap)
    ensures p in Build(parent, def, trivial, constant).table
    ensures Build(parent, def, trivial, constant).table[p] == constant(Effective(def.constMap, parent.constMap)[p])
  {
  }

  lemma TrivialEntry<R, S, K>(parent: ClassState<R, S, K>, def: ClassDef<R, S, K>,
                              trivial: S -> R, constant: K -> R, p: string)
    requires p in Effective(def.trivialMap, parent.trivialMap) && p !in Effective(def.constMap, parent.constMap)
    ensures p in Build(parent, def, trivial, constant).table
    ensures Build(parent, def, trivial, constant).table[p] == trivial(Effective(def.trivialMap, parent.trivialMap)[p])
  {
  }

  lemma MethodEntry<R, S, K>(parent: ClassState<R, S, K>, def: ClassDef<R, S, K>,
                             trivial: S -> R, constant: K -> R, p: string)
    requires p in def.methods
    requires p !in Effective(def.trivialMap, parent.trivialMap) && p !in Effective(def.constMap, parent.constMap)
    ensures p in Build(parent, def, trivial, constant).table
    ensures Build(parent, def, trivial, constant).table[p] == def.methods[p]
  {
  }

  lemma InheritedEntry<R, S, K>(parent: ClassState<R, S, K>, def: ClassDef<R, S, K>,
                                trivial: S -> R, constant: K -> R, p: string)
    requires p in parent.table && p !in def.methods
    requires p !in Effective(def.trivialMap, parent.trivialMap) && p !in Effective(def.constMap, parent.constMap)
    ensures p in Build(parent, def, trivial, constant).table
    ensures Build(parent, def, trivial, constant).table[p] == parent.table[p]
  {
  }

  /** Map entries naming properties outside `known`; these still become
      resolvers and are only reported. */
  function UnknownEntries<R, S, K>(c: ClassState<R, S, K>, known: set<string>): set<string> {
    (c.trivialMap.Keys + c.constMap.Keys) - known
  }

  /** The build step as it runs: each trivial entry is installed in turn,
      then each constant entry, collecting the names that are not standard
      properties. */
  method Install<R, S, K>(parent: ClassState<R, S, K>, def: ClassDef<R, S, K>,
                          trivial: S -> R, constant: K -> R, known: set<string>)
    returns (c: ClassState<R, S, K>, unknown: set<string>)
    ensures c == Build(parent, def, trivial, constant)
    ensures unknown == UnknownEntries(c, known)
  {
    var tm := Effective(def.trivialMap, parent.trivialMap);
    var cm := Effective(def.constMap, parent.constMap);
    var table, u1 := Overlay(parent.table + def.methods, tm, trivial, known);
    var u2;
    table, u2 := Overlay(table, cm, constant, known);
    c := ClassState(Effective(def.name, parent.name), tm, cm, table);
    unknown := u1 + u2;
  }

  /** One installation loop: every entry of `m` is bound, through `f`, in
      a copy of `base`, and the entries outside `known` are collected. */
  method Overlay<T, R>(base: map<string, R>, m: map<string, T>, f: T -> R, known: set<string>)
    returns (table: map<string, R>, unknown: set<string>)
    ensures table == base + (map p | p in m :: f(m[p]))
    ensures unknown == m.Keys - known
  {
    table := base;
    unknown := {};
    var todo := m.Keys;
    ghost var done: set<string> := {};
    while todo != {}
      invariant done !! todo && done + todo == m.Keys
      invariant table.Keys == base.Keys + done
      invariant forall q :: q in done ==> table[q] == f(m[q])
      invariant forall q :: q in base.Keys && q !in done ==> table[q] == base[q]
      invariant unknown == done - known
      decreases todo
    {
      var p :| p in todo;
      table := table[p := f(m[p])];
      if p !in known {
        unknown := unknown + {p};
      }
      todo := todo - {p};
      done := done + {p};
    }
    ghost var want := base + (map p | p in m :: f(m[p]));
    assert table.Keys == want.Keys;
    assert forall q :: q in table.Keys ==> table[q] == want[q];
  }
}
