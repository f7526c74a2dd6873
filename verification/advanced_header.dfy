/** The comment header of the advanced sketch: the board, the number of peripherals,
    and one numbered line per peripheral listing its non-zero pins. */
module AdvancedHeader {
  import opened Strings
  import opened Types
  import opened AdvancedNames

  /** `Object.entries(pins).filter(([, value]) => value !== 0)`: the pins not set to the
      number 0, in map order. */
  function NonZeroPins(ps: PinMap): (r: PinMap)
    ensures forall e :: e in r <==> e in ps && e.1 != Digital(0)
    ensures |r| <= |ps|
  {
    if ps == [] then []
    else if ps[0].1 == Digital(0) then NonZeroPins(ps[1..])
    else [ps[0]] + NonZeroPins(ps[1..])
  }

  /** `.map(([key, value]) => `${key}=${value}`)`. */
  function PinTexts(ps: PinMap): (r: seq<string>)
    ensures |r| == |ps| && forall i :: 0 <= i < |ps| ==> r[i] == ps[i].0 + "=" + Render(ps[i].1)
  {
    if ps == [] then [] else [ps[0].0 + "=" + Render(ps[0].1)] + PinTexts(ps[1..])
  }

  /** The pin list written in a component's line, entries separated by ", ". */
  function PinInfo(ps: PinMap): string
  {
    Join(PinTexts(NonZeroPins(ps)), ", ")
  }

  /** The line describing the peripheral at position idx, numbered from 1; the pin list
      in parentheses is written whenever the component has a pin map, even an empty one. */
  function ComponentLine(c: Component, idx: nat): string
  {
    "// " + NatToString(idx + 1) + ". " + ComponentName(c.ctype)
      + (if c.pins.Some? then " (" + PinInfo(c.pins.value) + ")" else "")
  }

  /** `forEach((comp, idx) => …)`: one line per component, made from the component and
      its position. */
  function Numbered(cs: seq<Component>, line: (Component, nat) -> string): seq<string>
  {
    if cs == [] then [] else Numbered(cs[..|cs| - 1], line) + [line(cs[|cs| - 1], |cs| - 1)]
  }

  function ComponentLines(cs: seq<Component>): seq<string>
  {
    Numbered(cs, ComponentLine)
  }

  /** The board's tag upper-cased with '-' written as a space. */
  function BoardLine(board: ComponentType): string
  {
    "// Microcontroller: " + ReplaceChar(Upper(TypeName(board)), '-', ' ')
  }

  const TitleLine := "// Auto-Generated Arduino Code"
  const ConfigurationLine := "// Component Configuration:"

  function CountLine(count: nat): string
  {
    "// Components: " + NatToString(count)
  }

  /** The five fixed lines before the component list. */
  function Preamble(board: ComponentType, count: nat): seq<string>
  {
    [TitleLine, BoardLine(board), CountLine(count), "//", ConfigurationLine]
  }

  function HeaderLines(board: ComponentType, cs: seq<Component>): seq<string>
  {
    Preamble(board, |cs|) + ComponentLines(cs)
  }

  method GeneratePreamble(board: ComponentType, count: nat) returns (header: string)
    ensures header == Text(Preamble(board, count))
  {
    var boardLine := BoardLine(board);
    var countLine := CountLine(count);
    header := TitleLine + "\n";
    header := header + boardLine + "\n";
    header := header + countLine + "\n";
    header := header + "//" + "\n";
    header := header + ConfigurationLine + "\n";
    TextOfFive(TitleLine, boardLine, countLine, "//", ConfigurationLine);
  }

  /** Appends one numbered line per component to text already holding the lines `pre`. */
  method AppendComponentLines(header0: string, ghost pre: seq<string>, cs: seq<Component>)
    returns (header: string)
    requires header0 == Text(pre)
    ensures header == Text(pre + ComponentLines(cs))
  {
    header := header0;
    ghost var done: seq<string> := [];
    var i := 0;
    assert pre + done == pre;
    while i < |cs|
      invariant 0 <= i <= |cs|
      invariant done == ComponentLines(cs[..i])
      invariant header == Text(pre + done)
    {
      var line := ComponentLine(cs[i], i);
      ComponentLinesSnoc(cs, i);
      TextSnoc(pre + done, line);
      assert (pre + done) + [line] == pre + (done + [line]);
      header := header + line + "\n";
      done := done + [line];
      i := i + 1;
    }
    assert cs[..|cs|] == cs;
  }

  lemma ComponentLinesSnoc(cs: seq<Component>, i: nat)
    requires i < |cs|
    ensures ComponentLines(cs[..i + 1]) == ComponentLines(cs[..i]) + [ComponentLine(cs[i], i)]
  {
    assert cs[..i + 1][..i] == cs[..i];
    assert ComponentLines(cs[..i + 1]) == Numbered(cs[..i + 1], ComponentLine);
  }

  /** `generateHeader(circuit, components)`. The board is the circuit's microcontroller,
      which the generator has already checked to be set. */
  method GenerateHeader(board: ComponentType, cs: seq<Component>) returns (header: string)
    ensures header == Text(HeaderLines(board, cs))
  {
    header := GeneratePreamble(board, |cs|);
    header := AppendComponentLines(header, Preamble(board, |cs|), cs);
  }

  lemma TextOfFive(a: string, b: string, c: string, d: string, e: string)
    ensures Text([a, b, c, d, e]) == a + "\n" + b + "\n" + c + "\n" + d + "\n" + e + "\n"
  {
    TextSnoc([], a);
    TextSnoc([a], b);
    TextSnoc([a, b], c);
    TextSnoc([a, b, c], d);
    TextSnoc([a, b, c, d], e);
    assert [] + [a] == [a] && [a] + [b] == [a, b] && [a, b] + [c] == [a, b, c];
    assert [a, b, c] + [d] == [a, b, c, d] && [a, b, c, d] + [e] == [a, b, c, d, e];
  }

  /** The header states the number of peripherals and then lists each one, numbered
      from 1 in list order. */
  lemma HeaderListsComponents(board: ComponentType, cs: seq<Component>)
    ensures var h := HeaderLines(board, cs);
      |h| == 5 + |cs|
      && h[2] == CountLine(|cs|)
      && forall i :: 0 <= i < |cs| ==> h[5 + i] == ComponentLine(cs[i], i)
  {
    var p, q := Preamble(board, |cs|), ComponentLines(cs);
    ComponentLinesAt(cs);
    HeaderParts(p, q, CountLine(|cs|));
  }

  lemma HeaderParts(p: seq<string>, q: seq<string>, count: string)
    requires |p| == 5 && p[2] == count
    ensures |p + q| == 5 + |q| && (p + q)[2] == count
    ensures forall i :: 0 <= i < |q| ==> (p + q)[5 + i] == q[i]
  {
  }


  lemma ComponentLinesAt(cs: seq<Component>)
    ensures |ComponentLines(cs)| == |cs|
    ensures forall i :: 0 <= i < |cs| ==> ComponentLines(cs)[i] == ComponentLine(cs[i], i)
  {
    NumberedAt(cs, ComponentLine);
    assert ComponentLines(cs) == Numbered(cs, ComponentLine);
  }

  lemma {:induction false} NumberedAt(cs: seq<Component>, line: (Component, nat) -> string)
    ensures |Numbered(cs, line)| == |cs|
    ensures forall i :: 0 <= i < |cs| ==> Numbered(cs, line)[i] == line(cs[i], i)
  {
    if cs != [] {
      var n := |cs| - 1;
      var init := cs[..n];
      NumberedAt(init, line);
      forall i | 0 <= i < n ensures Numbered(cs, line)[i] == line(cs[i], i) {
        assert init[i] == cs[i];
      }
    }
  }

  /** Only non-zero pins are listed, in map order: the list is the map with its zero
      entries removed. */
  lemma {:induction false} NonZeroPinsInOrder(ps: PinMap)
    ensures NonZeroPins(ps) == [] <==> forall k :: 0 <= k < |ps| ==> ps[k].1 == Digital(0)
    ensures forall k :: 0 <= k < |ps| && ps[k].1 != Digital(0) ==>
      NonZeroPins(ps[..k]) + [ps[k]] == NonZeroPins(ps[..k + 1])
  {
    if ps != [] {
      NonZeroPinsInOrder(ps[1..]);
      forall k | 0 <= k < |ps| && ps[k].1 != Digital(0)
        ensures NonZeroPins(ps[..k]) + [ps[k]] == NonZeroPins(ps[..k + 1])
      {
        NonZeroPinsPrefix(ps, k);
      }
      if NonZeroPins(ps) == [] {
        forall k | 0 <= k < |ps| ensures ps[k].1 == Digital(0) {
          assert ps[k] in ps;
        }
      }
    }
  }

  lemma NonZeroPinsPrefix(ps: PinMap, k: nat)
    requires k < |ps| && ps[k].1 != Digital(0)
    ensures NonZeroPins(ps[..k]) + [ps[k]] == NonZeroPins(ps[..k + 1])
  {
    NonZeroPinsSnoc(ps[..k], ps[k]);
    assert ps[..k] + [ps[k]] == ps[..k + 1];
  }

  lemma {:induction false} NonZeroPinsSnoc(ps: PinMap, e: (string, PinValue))
    ensures NonZeroPins(ps + [e]) == NonZeroPins(ps) + (if e.1 == Digital(0) then [] else [e])
  {
    if ps != [] {
      assert (ps + [e])[1..] == ps[1..] + [e];
      NonZeroPinsSnoc(ps[1..], e);
    } else {
      assert ps + [e] == [e];
    }
  }

  /** A single-colour LED with its catalog pins is described by its name and its anode
      alone: the cathode, at 0, is not listed. */
  lemma LedLineExample(id: string, pos: Position, scale: Option<Scale>)
    ensures ComponentLine(Component(id, LedRed, pos, Some([("anode", Digital(10)), ("cathode", Digital(0))]), scale), 0)
      == "// 1. Red LED (anode=10)"
  {
    var ps: PinMap := [("anode", Digital(10)), ("cathode", Digital(0))];
    assert ps[1..][1..] == [];
    assert NonZeroPins(ps) == [("anode", Digital(10))];
    assert NatToString(10) == "10";
    assert Render(Digital(10)) == "10";
    assert [("anode", Digital(10))][1..] == [];
    assert "anode" + "=" + "10" == "anode=10";
    assert PinTexts([("anode", Digital(10))]) == ["anode=10"];
    assert NatToString(1) == "1";
  }
}
