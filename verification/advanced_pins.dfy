/** Pin definitions of the advanced sketch: one `const int` line per variable name,
    for every non-zero pin of every peripheral, the first occurrence of a name winning. */
module AdvancedPins {
  import opened Strings
  import opened Types
  import opened AdvancedNames

  /** A declaration offered by a pin: the variable name and the text of its value. */
  datatype Decl = Decl(name: string, value: string)

  /** The declaration a pin offers: its variable name and its value as text. */
  function PinDecl(t: ComponentType, entry: (string, PinValue), index: nat): Decl
  {
    Decl(PinVariableName(t, entry.0, index), Render(entry.1))
  }

  /** The declarations a pin map offers, in map order: each pin whose value is not the
      number 0, named after the tag, the pin and the component's index. */
  function PinDecls(t: ComponentType, ps: PinMap, index: nat): seq<Decl>
  {
    if ps == [] then []
    else
      var init := PinDecls(t, ps[..|ps| - 1], index);
      var last := ps[|ps| - 1];
      if last.1 == Digital(0) then init
      else init + [PinDecl(t, last, index)]
  }

  /** The declarations one component offers; a component without a pin map offers none. */
  function ComponentDecls(c: Component, index: nat): seq<Decl>
  {
    if c.pins.None? then [] else PinDecls(c.ctype, c.pins.value, index)
  }

  /** The declarations offered by a component list, component by component, each with
      its position in the list as index. */
  function Candidates(cs: seq<Component>): seq<Decl>
  {
    if cs == [] then []
    else Candidates(cs[..|cs| - 1]) + ComponentDecls(cs[|cs| - 1], |cs| - 1)
  }

  /** The variable names of a list of declarations. */
  function Names(ds: seq<Decl>): set<string>
  {
    set d | d in ds :: d.name
  }

  /** The declarations kept when a name already declared is skipped. */
  function FirstOccurrences(ds: seq<Decl>): seq<Decl>
  {
    if ds == [] then []
    else
      var init := ds[..|ds| - 1];
      var last := ds[|ds| - 1];
      if last.name in Names(init) then FirstOccurrences(init)
      else FirstOccurrences(init) + [last]
  }

  function DeclLines(ds: seq<Decl>): (r: seq<string>)
    ensures |r| == |ds| && forall i :: 0 <= i < |ds| ==> r[i] == DeclarationLine(ds[i].name, ds[i].value)
  {
    if ds == [] then [] else DeclLines(ds[..|ds| - 1]) + [DeclarationLine(ds[|ds| - 1].name, ds[|ds| - 1].value)]
  }

  /** The lines of the pin definitions section. */
  function DefinitionLines(cs: seq<Component>): seq<string>
  {
    DeclLines(FirstOccurrences(Candidates(cs)))
  }

  // ---------------------------------------------------------------------------
  // Steps of the generating loop

  lemma CandidatesSnoc(cs: seq<Component>, i: nat)
    requires i < |cs|
    ensures Candidates(cs[..i + 1]) == Candidates(cs[..i]) + ComponentDecls(cs[i], i)
  {
    assert cs[..i + 1][..i] == cs[..i];
  }

  lemma PinDeclsSnoc(t: ComponentType, ps: PinMap, j: nat, index: nat)
    requires j < |ps|
    ensures PinDecls(t, ps[..j + 1], index)
      == PinDecls(t, ps[..j], index)
         + (if ps[j].1 == Digital(0) then [] else [PinDecl(t, ps[j], index)])
  {
    assert ps[..j + 1][..j] == ps[..j];
  }

  lemma FirstOccurrencesSnoc(ds: seq<Decl>, d: Decl)
    ensures FirstOccurrences(ds + [d])
      == if d.name in Names(ds) then FirstOccurrences(ds) else FirstOccurrences(ds) + [d]
    ensures Names(ds + [d]) == Names(ds) + {d.name}
  {
    assert (ds + [d])[..|ds|] == ds;
  }

  lemma DeclLinesSnoc(ds: seq<Decl>, d: Decl)
    ensures DeclLines(ds + [d]) == DeclLines(ds) + [DeclarationLine(d.name, d.value)]
  {
    assert (ds + [d])[..|ds|] == ds;
  }

  /** One declaration offered after the declarations `before`: a name already declared
      adds nothing, a new name adds its declaration line. */
  lemma DeclareStep(before: seq<Decl>, d: Decl)
    ensures Names(before + [d]) == Names(before) + {d.name}
    ensures d.name in Names(before) ==> FirstOccurrences(before + [d]) == FirstOccurrences(before)
    ensures d.name !in Names(before) ==>
      Text(DeclLines(FirstOccurrences(before + [d])))
        == Text(DeclLines(FirstOccurrences(before))) + DeclarationLine(d.name, d.value) + "\n"
  {
    FirstOccurrencesSnoc(before, d);
    DeclLinesSnoc(FirstOccurrences(before), d);
    TextSnoc(DeclLines(FirstOccurrences(before)), DeclarationLine(d.name, d.value));
  }

  /** The declarations offered after the declarations `before` and the first j + 1
      entries of a pin map. */
  lemma PinDeclsStep(t: ComponentType, ps: PinMap, j: nat, index: nat, before: seq<Decl>)
    requires j < |ps|
    ensures ps[j].1 == Digital(0) ==>
      before + PinDecls(t, ps[..j + 1], index) == before + PinDecls(t, ps[..j], index)
    ensures ps[j].1 != Digital(0) ==>
      before + PinDecls(t, ps[..j + 1], index) == (before + PinDecls(t, ps[..j], index)) + [PinDecl(t, ps[j], index)]
  {
    PinDeclsSnoc(t, ps, j, index);
  }

  /** A non-zero pin's declaration is appended unless its variable name is already
      declared; the map of declared names records it. */
  method DeclarePin(d: Decl, ghost done: seq<Decl>, defs0: string, declared0: map<string, string>)
    returns (defs: string, declared: map<string, string>)
    requires declared0.Keys == Names(done)
    requires defs0 == Text(DeclLines(FirstOccurrences(done)))
    ensures declared.Keys == Names(done + [d])
    ensures defs == Text(DeclLines(FirstOccurrences(done + [d])))
  {
    DeclareStep(done, d);
    if d.name !in declared0 {
      defs := defs0 + DeclarationLine(d.name, d.value) + "\n";
      declared := declared0[d.name := d.value];
    } else {
      defs, declared := defs0, declared0;
    }
  }

  /** The inner loop of `generatePinDefinitions`: the entries of one pin map, after the
      declarations `before` of the earlier components. */
  method DeclarePins(t: ComponentType, ps: PinMap, index: nat, ghost before: seq<Decl>,
                     defs0: string, declared0: map<string, string>)
    returns (defs: string, declared: map<string, string>)
    requires declared0.Keys == Names(before)
    requires defs0 == Text(DeclLines(FirstOccurrences(before)))
    ensures declared.Keys == Names(before + PinDecls(t, ps, index))
    ensures defs == Text(DeclLines(FirstOccurrences(before + PinDecls(t, ps, index))))
  {
    defs, declared := defs0, declared0;
    var j := 0;
    ghost var done := before;
    assert before + PinDecls(t, ps[..0], index) == before;
    while j < |ps|
      invariant 0 <= j <= |ps|
      invariant done == before + PinDecls(t, ps[..j], index)
      invariant declared.Keys == Names(done)
      invariant defs == Text(DeclLines(FirstOccurrences(done)))
    {
      PinDeclsStep(t, ps, j, index, before);
      var pinName := ps[j].0;
      var pinValue := ps[j].1;
      if pinValue != Digital(0) {
        var varName := PinVariableName(t, pinName, index);
        var pinStr := Render(pinValue);
        defs, declared := DeclarePin(Decl(varName, pinStr), done, defs, declared);
        done := done + [Decl(varName, pinStr)];
      }
      j := j + 1;
    }
    assert ps[..|ps|] == ps;
  }

  /** `generatePinDefinitions(components)`: the components in turn, each one's pin map
      entries in turn, with a map of the names already declared. */
  method GeneratePinDefinitions(cs: seq<Component>) returns (defs: string)
    ensures defs == Text(DefinitionLines(cs))
  {
    defs := "";
    var declared: map<string, string> := map[];
    var i := 0;
    while i < |cs|
      invariant 0 <= i <= |cs|
      invariant declared.Keys == Names(Candidates(cs[..i]))
      invariant defs == Text(DeclLines(FirstOccurrences(Candidates(cs[..i]))))
    {
      CandidatesSnoc(cs, i);
      if cs[i].pins.Some? {
        defs, declared := DeclarePins(cs[i].ctype, cs[i].pins.value, i, Candidates(cs[..i]), defs, declared);
      } else {
        assert Candidates(cs[..i + 1]) == Candidates(cs[..i]);
      }
      i := i + 1;
    }
    assert cs[..|cs|] == cs;
  }

  // ---------------------------------------------------------------------------
  // Properties

  /** Every non-zero pin of a map is offered, named after its own pin and the index. */
  lemma {:induction false} PinDeclsComplete(t: ComponentType, ps: PinMap, index: nat)
    ensures forall k :: 0 <= k < |ps| && ps[k].1 != Digital(0) ==>
      Decl(PinVariableName(t, ps[k].0, index), Render(ps[k].1)) in PinDecls(t, ps, index)
    decreases |ps|
  {
    if ps != [] {
      var n := |ps| - 1;
      PinDeclsComplete(t, ps[..n], index);
      PinDeclsSnoc(t, ps, n, index);
      assert ps[..n + 1] == ps;
      forall k | 0 <= k < n && ps[k].1 != Digital(0)
        ensures Decl(PinVariableName(t, ps[k].0, index), Render(ps[k].1)) in PinDecls(t, ps, index)
      {
        assert ps[..n][k] == ps[k];
      }
    }
  }

  /** Every declaration a map offers comes from one of its non-zero pins. */
  lemma {:induction false} PinDeclsSound(t: ComponentType, ps: PinMap, index: nat, d: Decl)
    requires d in PinDecls(t, ps, index)
    ensures exists k :: (0 <= k < |ps| && ps[k].1 != Digital(0)
      && d == Decl(PinVariableName(t, ps[k].0, index), Render(ps[k].1)))
    decreases |ps|
  {
    var n := |ps| - 1;
    PinDeclsSnoc(t, ps, n, index);
    assert ps[..n + 1] == ps;
    if d in PinDecls(t, ps[..n], index) {
      PinDeclsSound(t, ps[..n], index, d);
      var k :| 0 <= k < n && ps[..n][k].1 != Digital(0)
        && d == Decl(PinVariableName(t, ps[..n][k].0, index), Render(ps[..n][k].1));
      assert ps[k] == ps[..n][k];
    } else {
      assert ps[n].1 != Digital(0) && d == Decl(PinVariableName(t, ps[n].0, index), Render(ps[n].1));
    }
  }

  /** Every component's declarations are offered by the list. */
  lemma {:induction false} CandidatesComplete(cs: seq<Component>, i: nat, d: Decl)
    requires i < |cs| && d in ComponentDecls(cs[i], i)
    ensures d in Candidates(cs)
    decreases |cs|
  {
    var n := |cs| - 1;
    CandidatesSnoc(cs, n);
    assert cs[..n + 1] == cs;
    if i < n {
      assert cs[..n][i] == cs[i];
      CandidatesComplete(cs[..n], i, d);
    } else {
      assert i == n;
    }
  }

  /** Every declaration the list offers is offered by one of its components, at that
      component's position. */
  lemma {:induction false} CandidatesSound(cs: seq<Component>, d: Decl)
    requires d in Candidates(cs)
    ensures exists i :: 0 <= i < |cs| && d in ComponentDecls(cs[i], i)
    decreases |cs|
  {
    var n := |cs| - 1;
    CandidatesSnoc(cs, n);
    assert cs[..n + 1] == cs;
    if d in Candidates(cs[..n]) {
      CandidatesSound(cs[..n], d);
      var i :| 0 <= i < n && d in ComponentDecls(cs[..n][i], i);
      assert cs[i] == cs[..n][i];
    }
  }

  /** Skipping repeated names keeps each name once, loses no name, keeps for each
      name the declaration of its first occurrence, and keeps the names in the order
      of their first occurrences. */
  lemma FirstOccurrencesExactly(ds: seq<Decl>)
    ensures var r := FirstOccurrences(ds);
      (forall a, b :: 0 <= a < b < |r| ==> r[a].name != r[b].name)
      && Names(r) == Names(ds)
      && (forall a :: 0 <= a < |r| ==> FirstOf(ds, r[a]))
      && forall a, b :: 0 <= a < b < |r| ==> FirstIndex(ds, r[a].name) < FirstIndex(ds, r[b].name)
  {
    FirstOccurrencesDistinct(ds);
    FirstOccurrencesInOrder(ds);
    var r := FirstOccurrences(ds);
    forall a | 0 <= a < |r| ensures FirstOf(ds, r[a]) {
      var k := FirstOccurrenceAt(ds, a);
    }
  }

  /** The position of the first declaration of `name` in ds, or |ds| when there is none. */
  function FirstIndex(ds: seq<Decl>, name: string): (k: nat)
    ensures k <= |ds|
    ensures k < |ds| ==> ds[k].name == name
    ensures forall j :: 0 <= j < k ==> ds[j].name != name
  {
    if ds == [] then 0
    else
      var n := |ds| - 1;
      var k := FirstIndex(ds[..n], name);
      if k < n || ds[n].name == name then k else |ds|
  }

  /** A name declared in ds has its first declaration inside ds, and appending a
      declaration moves no first position. */
  lemma FirstIndexSnoc(ds: seq<Decl>, d: Decl, name: string)
    ensures name in Names(ds) <==> FirstIndex(ds, name) < |ds|
    ensures name in Names(ds) ==> FirstIndex(ds + [d], name) == FirstIndex(ds, name)
    ensures name !in Names(ds) && d.name == name ==> FirstIndex(ds + [d], name) == |ds|
  {
    var k, k' := FirstIndex(ds, name), FirstIndex(ds + [d], name);
    if name in Names(ds) {
      var j :| 0 <= j < |ds| && ds[j].name == name;
      assert (ds + [d])[k] == ds[k];
    } else {
      if d.name == name {
        assert (ds + [d])[|ds|] == d;
      }
    }
  }

  /** The kept declarations come in the order in which their names first occur. */
  lemma {:induction false} FirstOccurrencesInOrder(ds: seq<Decl>)
    ensures var r := FirstOccurrences(ds);
      forall a, b :: 0 <= a < b < |r| ==> FirstIndex(ds, r[a].name) < FirstIndex(ds, r[b].name)
    decreases |ds|
  {
    if ds != [] {
      var n := |ds| - 1;
      var init, last := ds[..n], ds[n];
      assert ds == init + [last];
      FirstOccurrencesInOrder(init);
      FirstOccurrencesSnoc(init, last);
      FirstOccurrencesDistinct(init);
      var r0, r := FirstOccurrences(init), FirstOccurrences(ds);
      forall a, b | 0 <= a < b < |r| ensures FirstIndex(ds, r[a].name) < FirstIndex(ds, r[b].name) {
        assert r[a] == r0[a] && r[a] in r0;
        FirstIndexSnoc(init, last, r[a].name);
        if b < |r0| {
          assert r[b] == r0[b] && r[b] in r0;
          FirstIndexSnoc(init, last, r[b].name);
        } else {
          FirstIndexSnoc(init, last, last.name);
        }
      }
    }
  }

  /** d occurs in ds, and no earlier declaration of ds has its name. */
  predicate FirstOf(ds: seq<Decl>, d: Decl)
  {
    exists k :: 0 <= k < |ds| && ds[k] == d && forall k' :: 0 <= k' < k ==> ds[k'].name != d.name
  }

  lemma {:induction false} FirstOccurrencesDistinct(ds: seq<Decl>)
    ensures var r := FirstOccurrences(ds);
      (forall a, b :: 0 <= a < b < |r| ==> r[a].name != r[b].name) && Names(r) == Names(ds)
    decreases |ds|
  {
    if ds != [] {
      var n := |ds| - 1;
      var init := ds[..n];
      var last := ds[n];
      assert ds == init + [last];
      FirstOccurrencesDistinct(init);
      FirstOccurrencesSnoc(init, last);
      var r0 := FirstOccurrences(init);
      if last.name !in Names(init) {
        forall a | 0 <= a < |r0| ensures r0[a].name != last.name {
          assert r0[a] in r0;
        }
      }
    }
  }

  /** Where the a-th kept declaration occurs first in ds. */
  lemma {:induction false} FirstOccurrenceAt(ds: seq<Decl>, a: nat) returns (k: nat)
    requires a < |FirstOccurrences(ds)|
    ensures k < |ds| && ds[k] == FirstOccurrences(ds)[a]
    ensures forall k' :: 0 <= k' < k ==> ds[k'].name != ds[k].name
    decreases |ds|
  {
    var n := |ds| - 1;
    var init := ds[..n];
    var last := ds[n];
    assert ds == init + [last];
    FirstOccurrencesSnoc(init, last);
    var r0 := FirstOccurrences(init);
    if a < |r0| {
      k := FirstOccurrenceAt(init, a);
      forall k' | 0 <= k' < k ensures ds[k'].name != ds[k].name {
        assert ds[k'] == init[k'] && ds[k] == init[k];
      }
    } else {
      k := n;
      forall k' | 0 <= k' < n ensures ds[k'].name != last.name {
        assert init[k'] in init;
      }
    }
  }

  /** d is the declaration of a non-zero pin of some component, named with that
      component's position. */
  predicate Offered(cs: seq<Component>, d: Decl)
  {
    exists i, k :: 0 <= i < |cs| && cs[i].pins.Some? && 0 <= k < |cs[i].pins.value|
      && cs[i].pins.value[k].1 != Digital(0)
      && d == Decl(PinVariableName(cs[i].ctype, cs[i].pins.value[k].0, i), Render(cs[i].pins.value[k].1))
  }

  /** The pin definitions declare each variable name once; every non-zero pin of every
      component has its variable declared, named with the component's position; and
      every declaration is one offered by a non-zero pin of some component, named with
      that component's position; the declarations come in the order in which their
      names are first offered, component by component. */
  lemma DefinitionsExactly(cs: seq<Component>)
    ensures var r := FirstOccurrences(Candidates(cs));
      (forall a, b :: 0 <= a < b < |r| ==> r[a].name != r[b].name)
      && (forall i, k :: 0 <= i < |cs| && cs[i].pins.Some? && 0 <= k < |cs[i].pins.value|
            && cs[i].pins.value[k].1 != Digital(0)
            ==> PinVariableName(cs[i].ctype, cs[i].pins.value[k].0, i) in Names(r))
      && (forall d :: d in r ==> Offered(cs, d))
      && (forall a, b :: 0 <= a < b < |r| ==> FirstIndex(Candidates(cs), r[a].name) < FirstIndex(Candidates(cs), r[b].name))
  {
    var ds := Candidates(cs);
    var r := FirstOccurrences(ds);
    FirstOccurrencesExactly(ds);
    forall i, k | 0 <= i < |cs| && cs[i].pins.Some? && 0 <= k < |cs[i].pins.value|
      && cs[i].pins.value[k].1 != Digital(0)
      ensures PinVariableName(cs[i].ctype, cs[i].pins.value[k].0, i) in Names(r)
    {
      var ps := cs[i].pins.value;
      PinDeclsComplete(cs[i].ctype, ps, i);
      var d := Decl(PinVariableName(cs[i].ctype, ps[k].0, i), Render(ps[k].1));
      assert d in ComponentDecls(cs[i], i);
      CandidatesComplete(cs, i, d);
    }
    forall d | d in r
      ensures Offered(cs, d)
    {
      var a :| 0 <= a < |r| && r[a] == d;
      var k0 :| 0 <= k0 < |ds| && ds[k0] == r[a] && forall k' :: 0 <= k' < k0 ==> ds[k'].name != r[a].name;
      CandidatesSound(cs, d);
      var i :| 0 <= i < |cs| && d in ComponentDecls(cs[i], i);
      PinDeclsSound(cs[i].ctype, cs[i].pins.value, i, d);
      var k :| 0 <= k < |cs[i].pins.value| && cs[i].pins.value[k].1 != Digital(0)
        && d == Decl(PinVariableName(cs[i].ctype, cs[i].pins.value[k].0, i), Render(cs[i].pins.value[k].1));
    }
  }

  /** The variable names the pin definitions of a component list declare. */
  function DeclaredNames(cs: seq<Component>): set<string>
  {
    Names(FirstOccurrences(Candidates(cs)))
  }

  /** The component has a pin whose value is not 0 and whose name upper-cases to the
      same text as `pin`. */
  predicate HasLivePin(c: Component, pin: string)
  {
    c.pins.Some?
      && exists k :: 0 <= k < |c.pins.value| && c.pins.value[k].1 != Digital(0) && Upper(c.pins.value[k].0) == Upper(pin)
  }

  /** The variable named after the component at position i and a pin name is declared
      exactly when that component has a non-zero pin whose name upper-cases to the same
      text: no other component's pins can supply it, since the index is part of the name. */
  lemma DeclaredIff(cs: seq<Component>, i: nat, pin: string)
    requires i < |cs|
    ensures PinVariableName(cs[i].ctype, pin, i) in DeclaredNames(cs) <==> HasLivePin(cs[i], pin)
  {
    var t := cs[i].ctype;
    var v := PinVariableName(t, pin, i);
    var r := FirstOccurrences(Candidates(cs));
    DefinitionsExactly(cs);
    if v in DeclaredNames(cs) {
      var d :| d in r && d.name == v;
      assert Offered(cs, d);
      var j, k :| 0 <= j < |cs| && cs[j].pins.Some? && 0 <= k < |cs[j].pins.value|
        && cs[j].pins.value[k].1 != Digital(0)
        && d == Decl(PinVariableName(cs[j].ctype, cs[j].pins.value[k].0, j), Render(cs[j].pins.value[k].1));
      PinVariableNameIndex(cs[j].ctype, cs[j].pins.value[k].0, j, t, pin, i);
      PinVariableNameEquality(t, cs[i].pins.value[k].0, i, pin, i);
    }
    if HasLivePin(cs[i], pin) {
      var k :| 0 <= k < |cs[i].pins.value| && cs[i].pins.value[k].1 != Digital(0)
        && Upper(cs[i].pins.value[k].0) == Upper(pin);
      PinVariableNameEquality(t, cs[i].pins.value[k].0, i, pin, i);
    }
  }
}
