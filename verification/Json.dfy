/** Parsed JSON values, and the bounded search for URIs outside the session. */
module Json {
  import opened Text

  datatype Field = Field(name: string, value: Json)

  /** Object members are in `Object.entries` order. */
  datatype Json =
    | Null
    | Bool(b: bool)
    | Num(n: real)
    | Str(text: Text)
    | Arr(elems: seq<Json>)
    | Obj(fields: seq<Field>)

  const MAX_JSON_NODES := 16384
  const MAX_JSON_DEPTH := 64

  const URI_PROPERTY_NAMES := {"uri", "targetUri", "oldUri", "newUri"}

  predicate IsContainer(v: Json) {
    v.Arr? || v.Obj?
  }

  /** A URI-named string property that names neither the workspace nor a document of the session. */
  predicate Stray(f: Field, uris: set<Text>, workspace: Text) {
    && (f.name == "uri" || f.name == "targetUri" || f.name == "oldUri" || f.name == "newUri")
    && f.value.Str? && f.value.text != workspace && f.value.text !in uris
  }

  // ---- what the search decides, stated by recursion on the value ------------------------

  /** Nodes the search counts: containers, and scalars that are array elements. */
  ghost function Weight(v: Json): nat
    decreases v, 1
  {
    match v
    case Arr(es) => 1 + ElemsWeight(es)
    case Obj(fs) => 1 + FieldsWeight(fs)
    case _ => 1
  }

  ghost function ElemsWeight(es: seq<Json>): nat
    decreases es, 0
  {
    if es == [] then 0 else Weight(es[0]) + ElemsWeight(es[1..])
  }

  ghost function FieldsWeight(fs: seq<Field>): nat
    decreases fs, 0
  {
    if fs == [] then 0
    else (if IsContainer(fs[0].value) then Weight(fs[0].value) else 0) + FieldsWeight(fs[1..])
  }

  /** No counted node lies deeper than the limit. */
  ghost predicate Shallow(v: Json, depth: nat)
    decreases v, 1
  {
    && depth <= 64
    && match v
       case Arr(es) => ElemsShallow(es, depth + 1)
       case Obj(fs) => FieldsShallow(fs, depth + 1)
       case _ => true
  }

  ghost predicate ElemsShallow(es: seq<Json>, depth: nat)
    decreases es, 0
  {
    es != [] ==> Shallow(es[0], depth) && ElemsShallow(es[1..], depth)
  }

  ghost predicate FieldsShallow(fs: seq<Field>, depth: nat)
    decreases fs, 0
  {
    fs != [] ==>
      (IsContainer(fs[0].value) ==> Shallow(fs[0].value, depth)) && FieldsShallow(fs[1..], depth)
  }

  /** No stray URI anywhere in the value. */
  ghost predicate Clean(v: Json, uris: set<Text>, workspace: Text)
    decreases v, 1
  {
    match v
    case Arr(es) => ElemsClean(es, uris, workspace)
    case Obj(fs) => FieldsClean(fs, uris, workspace)
    case _ => true
  }

  ghost predicate ElemsClean(es: seq<Json>, uris: set<Text>, workspace: Text)
    decreases es, 0
  {
    es != [] ==> Clean(es[0], uris, workspace) && ElemsClean(es[1..], uris, workspace)
  }

  ghost predicate FieldsClean(fs: seq<Field>, uris: set<Text>, workspace: Text)
    decreases fs, 0
  {
    fs != [] ==>
      && !Stray(fs[0], uris, workspace)
      && Clean(fs[0].value, uris, workspace)
      && FieldsClean(fs[1..], uris, workspace)
  }

  /** The member `f` occurs in `v`, at any depth. */
  ghost predicate Occurs(f: Field, v: Json)
    decreases v
  {
    match v
    case Arr(es) => exists i :: 0 <= i < |es| && Occurs(f, es[i])
    case Obj(fs) => exists i :: 0 <= i < |fs| && (fs[i] == f || Occurs(f, fs[i].value))
    case _ => false
  }

  lemma {:induction false} ElemsCleanAll(es: seq<Json>, uris: set<Text>, workspace: Text)
    ensures ElemsClean(es, uris, workspace) <==> forall i :: 0 <= i < |es| ==> Clean(es[i], uris, workspace)
  {
    if es != [] {
      ElemsCleanAll(es[1..], uris, workspace);
      assert forall i :: 0 <= i < |es[1..]| ==> es[1..][i] == es[i + 1];
      assert forall i :: 0 < i < |es| ==> es[i] == es[1..][i - 1];
    }
  }

  lemma {:induction false} FieldsCleanAll(fs: seq<Field>, uris: set<Text>, workspace: Text)
    ensures FieldsClean(fs, uris, workspace) <==>
            forall i :: 0 <= i < |fs| ==> !Stray(fs[i], uris, workspace) && Clean(fs[i].value, uris, workspace)
  {
    if fs != [] {
      FieldsCleanAll(fs[1..], uris, workspace);
      assert forall i :: 0 <= i < |fs[1..]| ==> fs[1..][i] == fs[i + 1];
      assert forall i :: 0 < i < |fs| ==> fs[i] == fs[1..][i - 1];
    }
  }

  /** Clean means that no member at any depth is stray. */
  lemma {:induction false} CleanIsNoStray(v: Json, uris: set<Text>, workspace: Text)
    ensures Clean(v, uris, workspace) <==> forall f :: Occurs(f, v) ==> !Stray(f, uris, workspace)
    decreases v
  {
    match v
    case Arr(es) =>
      ElemsCleanAll(es, uris, workspace);
      forall i | 0 <= i < |es|
        ensures Clean(es[i], uris, workspace) <==> forall f :: Occurs(f, es[i]) ==> !Stray(f, uris, workspace)
      {
        CleanIsNoStray(es[i], uris, workspace);
      }
    case Obj(fs) =>
      FieldsCleanAll(fs, uris, workspace);
      forall i | 0 <= i < |fs|
        ensures Clean(fs[i].value, uris, workspace) <==>
                forall f :: Occurs(f, fs[i].value) ==> !Stray(f, uris, workspace)
      {
        CleanIsNoStray(fs[i].value, uris, workspace);
      }
      assert forall i :: 0 <= i < |fs| ==> Occurs(fs[i], v);
    case _ =>
  }

  // ---- reading a value ------------------------------------------------------------------

  datatype Maybe = Undefined | Defined(value: Json)

  /** `object.name`. */
  function Get(v: Json, name: string): Maybe {
    if v.Obj? then Find(v.fields, name) else Undefined
  }

  function Find(fs: seq<Field>, name: string): Maybe {
    if fs == [] then Undefined
    else if fs[0].name == name then Defined(fs[0].value)
    else Find(fs[1..], name)
  }

  /** The first member of that name: there is one exactly when the lookup is defined. */
  lemma {:induction false} FindIsFirst(fs: seq<Field>, name: string, i: nat)
    requires i <= |fs| && (forall j :: 0 <= j < i ==> fs[j].name != name)
    ensures i == |fs| ==> Find(fs, name).Undefined?
    ensures i < |fs| && fs[i].name == name ==> Find(fs, name) == Defined(fs[i].value)
  {
    if i > 0 {
      FindIsFirst(fs[1..], name, i - 1);
    }
  }

  predicate IsObject(m: Maybe) {
    m.Defined? && m.value.Obj?
  }

  predicate IsText(m: Maybe) {
    m.Defined? && m.value.Str?
  }

  /** `Number.isSafeInteger(value) && value >= 0`. */
  predicate IsIndex(m: Maybe) {
    && m.Defined? && m.value.Num?
    && m.value.n == m.value.n.Floor as real
    && 0.0 <= m.value.n <= 9007199254740991.0
  }

  function Index(m: Maybe): (n: nat)
    requires IsIndex(m)
    ensures m == Defined(Num(n as real))
  {
    m.value.n.Floor
  }

  // ---- the stack of the search ----------------------------------------------------------

  datatype Entry = Entry(depth: nat, value: Json)

  ghost function StackWeight(st: seq<Entry>): nat {
    if st == [] then 0 else Weight(st[0].value) + StackWeight(st[1..])
  }

  ghost predicate StackShallow(st: seq<Entry>) {
    forall i :: 0 <= i < |st| ==> Shallow(st[i].value, st[i].depth)
  }

  ghost predicate StackClean(st: seq<Entry>, uris: set<Text>, workspace: Text) {
    forall i :: 0 <= i < |st| ==> Clean(st[i].value, uris, workspace)
  }

  lemma {:induction false} StackWeightAppend(a: seq<Entry>, b: seq<Entry>)
    ensures StackWeight(a + b) == StackWeight(a) + StackWeight(b)
  {
    if a == [] {
      assert a + b == b;
    } else {
      assert (a + b)[1..] == a[1..] + b;
      StackWeightAppend(a[1..], b);
    }
  }

  lemma Pushed(st: seq<Entry>, e: Entry, uris: set<Text>, workspace: Text)
    ensures StackWeight(st + [e]) == StackWeight(st) + Weight(e.value)
    ensures StackShallow(st + [e]) <==> StackShallow(st) && Shallow(e.value, e.depth)
    ensures StackClean(st + [e], uris, workspace)
       <==> StackClean(st, uris, workspace) && Clean(e.value, uris, workspace)
  {
    StackWeightAppend(st, [e]);
    assert StackWeight([e]) == Weight(e.value) + StackWeight([]);
    var up := st + [e];
    assert up[|st|] == e;
    assert forall i :: 0 <= i < |st| ==> up[i] == st[i];
  }

  lemma Popped(st: seq<Entry>, uris: set<Text>, workspace: Text)
    requires st != []
    ensures var top := st[|st| - 1];
            var below := st[..|st| - 1];
            && StackWeight(st) == StackWeight(below) + Weight(top.value)
            && (StackShallow(st) <==> StackShallow(below) && Shallow(top.value, top.depth))
            && (StackClean(st, uris, workspace) <==>
                  StackClean(below, uris, workspace) && Clean(top.value, uris, workspace))
  {
    assert st == st[..|st| - 1] + [st[|st| - 1]];
    Pushed(st[..|st| - 1], st[|st| - 1], uris, workspace);
  }

  /** Push every element of an array. */
  method PushElems(st: seq<Entry>, es: seq<Json>, depth: nat, ghost uris: set<Text>, ghost workspace: Text)
    returns (st': seq<Entry>)
    ensures StackWeight(st') == StackWeight(st) + ElemsWeight(es)
    ensures StackShallow(st') <==> StackShallow(st) && ElemsShallow(es, depth)
    ensures StackClean(st', uris, workspace) <==> StackClean(st, uris, workspace) && ElemsClean(es, uris, workspace)
  {
    st' := st;
    for i := 0 to |es|
      invariant StackWeight(st') + ElemsWeight(es[i..]) == StackWeight(st) + ElemsWeight(es)
      invariant StackShallow(st') && ElemsShallow(es[i..], depth) <==> StackShallow(st) && ElemsShallow(es, depth)
      invariant StackClean(st', uris, workspace) && ElemsClean(es[i..], uris, workspace)
                <==> StackClean(st, uris, workspace) && ElemsClean(es, uris, workspace)
    {
      Pushed(st', Entry(depth, es[i]), uris, workspace);
      st' := st' + [Entry(depth, es[i])];
      assert es[i..][0] == es[i] && es[i..][1..] == es[i + 1..];
    }
  }

  /** Look at every member of an object, stop at a stray URI, push the containers. */
  method PushFields(st: seq<Entry>, fs: seq<Field>, depth: nat, uris: set<Text>, workspace: Text)
    returns (stray: bool, st': seq<Entry>)
    ensures stray ==> !FieldsClean(fs, uris, workspace)
    ensures !stray ==>
              && StackWeight(st') == StackWeight(st) + FieldsWeight(fs)
              && (StackShallow(st') <==> StackShallow(st) && FieldsShallow(fs, depth))
              && (StackClean(st', uris, workspace) <==>
                    StackClean(st, uris, workspace) && FieldsClean(fs, uris, workspace))
  {
    st', stray := st, false;
    for i := 0 to |fs|
      invariant !stray
      invariant StackWeight(st') + FieldsWeight(fs[i..]) == StackWeight(st) + FieldsWeight(fs)
      invariant StackShallow(st') && FieldsShallow(fs[i..], depth) <==> StackShallow(st) && FieldsShallow(fs, depth)
      invariant StackClean(st', uris, workspace) && FieldsClean(fs[i..], uris, workspace)
                <==> StackClean(st, uris, workspace) && FieldsClean(fs, uris, workspace)
      invariant FieldsClean(fs, uris, workspace) ==> FieldsClean(fs[i..], uris, workspace)
    {
      assert fs[i..][0] == fs[i] && fs[i..][1..] == fs[i + 1..];
      var child := fs[i].value;
      if fs[i].name in URI_PROPERTY_NAMES && child.Str? && child.text != workspace && child.text !in uris {
        return true, st';
      }
      if child.Arr? || child.Obj? {
        Pushed(st', Entry(depth, child), uris, workspace);
        st' := st' + [Entry(depth, child)];
      }
    }
  }

  /** The search answers "no" exactly for values within both limits and without a stray URI. */
  method HasUnexpectedUri(value: Json, uris: set<Text>, workspace: Text) returns (found: bool)
    ensures !found <==>
            Weight(value) <= 16384 && Shallow(value, 0) && Clean(value, uris, workspace)
  {
    var pending := [Entry(0, value)];
    var visited := 0;
    Pushed([], Entry(0, value), uris, workspace);
    assert [] + [Entry(0, value)] == pending;
    while pending != []
      invariant visited + StackWeight(pending) == Weight(value)
      invariant StackShallow(pending) <==> Shallow(value, 0)
      invariant StackClean(pending, uris, workspace) <==> Clean(value, uris, workspace)
      invariant visited <= MAX_JSON_NODES
      decreases StackWeight(pending)
    {
      Popped(pending, uris, workspace);
      var entry := pending[|pending| - 1];
      pending := pending[..|pending| - 1];
      visited := visited + 1;
      if visited > MAX_JSON_NODES || entry.depth > MAX_JSON_DEPTH {
        return true;
      }
      match entry.value {
        case Arr(es) =>
          pending := PushElems(pending, es, entry.depth + 1, uris, workspace);
        case Obj(fs) =>
          var stray;
          stray, pending := PushFields(pending, fs, entry.depth + 1, uris, workspace);
          if stray {
            return true;
          }
        case _ =>
      }
    }
    found := false;
  }
}
