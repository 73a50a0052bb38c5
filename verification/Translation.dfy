/** The anti-corruption step: inbound lines become our own lines, and our lines become SKU quantities. */
module Translation {
  import opened Domain
  import opened Sums

  /** What the product dictionary answered for one line; it may fail, and may answer with an empty SKU. */
  datatype Lookup = Sku(sku: string) | NotFound | LookupFailed

  function TranslateLine(l: InboundLine, k: Lookup): Result<Line> {
    match k
    case Sku(sku) => NewLine(l.ref, l.product, sku, l.quantity)
    case NotFound => Err(UnknownProduct)
    case LookupFailed => Err(PortFailure)
  }

  /** Lines in order, stopping at the first that cannot be translated. */
  function TranslateLines(lines: seq<InboundLine>, lookups: seq<Lookup>): (r: Result<seq<Line>>)
    requires |lookups| >= |lines|
    ensures r.Ok? ==> |r.value| == |lines|
  {
    if lines == [] then Ok([])
    else
      var l :- TranslateLine(lines[0], lookups[0]);
      var rest :- TranslateLines(lines[1..], lookups[1..]);
      Ok([l] + rest)
  }

  /** Line i is the first that fails. */
  predicate FirstFailure(lines: seq<InboundLine>, lookups: seq<Lookup>, i: nat)
    requires |lookups| >= |lines|
  {
    && i < |lines|
    && TranslateLine(lines[i], lookups[i]).Err?
    && forall j :: 0 <= j < i ==> TranslateLine(lines[j], lookups[j]).Ok?
  }

  /** The verdict on a demand is exactly that of its first failing line; with none, every line comes through. */
  lemma {:induction false} TranslationVerdict(lines: seq<InboundLine>, lookups: seq<Lookup>, e: Error)
    requires |lookups| >= |lines|
    ensures TranslateLines(lines, lookups) == Err(e) <==>
            exists i: nat :: FirstFailure(lines, lookups, i) && TranslateLine(lines[i], lookups[i]) == Err(e)
    ensures TranslateLines(lines, lookups).Ok? ==>
              forall i :: 0 <= i < |lines| ==>
                Ok(TranslateLines(lines, lookups).value[i]) == TranslateLine(lines[i], lookups[i])
  {
    if lines != [] {
      var tl, tk := lines[1..], lookups[1..];
      TranslationVerdict(tl, tk, e);
      if TranslateLine(lines[0], lookups[0]).Err? {
        assert FirstFailure(lines, lookups, 0);
      } else {
        if i: nat :| FirstFailure(tl, tk, i) && TranslateLine(tl[i], tk[i]) == Err(e) {
          forall j | 0 <= j < i + 1 ensures TranslateLine(lines[j], lookups[j]).Ok? {
            if j > 0 { assert TranslateLine(tl[j - 1], tk[j - 1]).Ok?; }
          }
          assert FirstFailure(lines, lookups, i + 1);
        }
        if i: nat :| FirstFailure(lines, lookups, i) && TranslateLine(lines[i], lookups[i]) == Err(e) {
          forall j | 0 <= j < i - 1 ensures TranslateLine(tl[j], tk[j]).Ok? {
            assert TranslateLine(lines[j + 1], lookups[j + 1]).Ok?;
          }
          assert FirstFailure(tl, tk, i - 1);
        }
      }
    }
  }

  // ----- quantities -----

  function Units(lines: seq<Line>): int {
    if lines == [] then 0 else Units(lines[..|lines| - 1]) + lines[|lines| - 1].quantity
  }

  function InboundUnits(lines: seq<InboundLine>): int {
    if lines == [] then 0 else lines[0].quantity + InboundUnits(lines[1..])
  }

  function UnitsOf(lines: seq<Line>, sku: string): int {
    if lines == [] then 0
    else
      var l := lines[|lines| - 1];
      UnitsOf(lines[..|lines| - 1], sku) + (if l.sku == sku then l.quantity else 0)
  }

  /** The projection has exactly the SKUs of the lines, each with the units of its lines. */
  lemma {:induction false} QuantitiesAt(lines: seq<Line>, sku: string)
    ensures sku in Quantities(lines) <==> exists i :: 0 <= i < |lines| && lines[i].sku == sku
    ensures UnitsOf(lines, sku) == if sku in Quantities(lines) then Quantities(lines)[sku] else 0
  {
    if lines != [] {
      var n := |lines| - 1;
      QuantitiesAt(lines[..n], sku);
      if i :| 0 <= i < n && lines[..n][i].sku == sku { assert lines[i].sku == sku; }
      if i :| 0 <= i < |lines| && lines[i].sku == sku {
        if i < n { assert lines[..n][i].sku == sku; }
      }
    }
  }

  lemma {:induction false} QuantitiesTotal(lines: seq<Line>)
    ensures Sum(Quantities(lines)) == Units(lines)
  {
    if lines != [] {
      var n := |lines| - 1;
      QuantitiesTotal(lines[..n]);
      var m := Quantities(lines[..n]);
      SumPut(m, lines[n].sku, Quantities(lines)[lines[n].sku]);
    }
  }

  lemma {:induction false} UnitsWithout(lines: seq<Line>, j: nat, sku: string)
    requires j < |lines|
    ensures UnitsOf(lines, sku) ==
            UnitsOf(Without(lines, j), sku) + (if lines[j].sku == sku then lines[j].quantity else 0)
  {
    var n := |lines| - 1;
    if j == n {
      assert Without(lines, j) == lines[..n];
    } else {
      UnitsWithout(lines[..n], j, sku);
      var w := Without(lines, j);
      assert w[..|w| - 1] == Without(lines[..n], j);
    }
  }

  lemma TakeOne(a: seq<Line>, b: seq<Line>) returns (j: nat)
    requires multiset(a) == multiset(b) && a != []
    ensures j < |b| && b[j] == a[|a| - 1] && multiset(a[..|a| - 1]) == multiset(Without(b, j))
  {
    var n := |a| - 1;
    var l := a[n];
    assert l in multiset(b);
    j :| 0 <= j < |b| && b[j] == l;
    WithoutMultiset(b, j);
    assert a == a[..n] + [l];
    assert multiset(a) - multiset{l} == multiset(a[..n]);
    assert multiset(b) - multiset{l} == multiset(Without(b, j));
  }

  lemma {:induction false} UnitsPermute(a: seq<Line>, b: seq<Line>, sku: string)
    requires multiset(a) == multiset(b)
    ensures UnitsOf(a, sku) == UnitsOf(b, sku)
    decreases |a|
  {
    if a == [] {
      assert |multiset(b)| == 0;
    } else {
      var j := TakeOne(a, b);
      UnitsPermute(a[..|a| - 1], Without(b, j), sku);
      UnitsWithout(b, j, sku);
    }
  }

  /** The projection does not depend on the order of the lines. */
  lemma QuantitiesPermute(a: seq<Line>, b: seq<Line>)
    requires multiset(a) == multiset(b)
    ensures Quantities(a) == Quantities(b)
  {
    forall sku
      ensures sku in Quantities(a) <==> sku in Quantities(b)
      ensures sku in Quantities(a) ==> Quantities(a)[sku] == Quantities(b)[sku]
    {
      UnitsPermute(a, b, sku);
      QuantitiesAt(a, sku);
      QuantitiesAt(b, sku);
      if i :| 0 <= i < |a| && a[i].sku == sku { assert a[i] in multiset(b); }
      if i :| 0 <= i < |b| && b[i].sku == sku { assert b[i] in multiset(a); }
    }
  }

  predicate Positive(lines: seq<Line>) {
    forall i :: 0 <= i < |lines| ==> lines[i].quantity > 0
  }

  lemma {:induction false} UnitsOfPositive(lines: seq<Line>, sku: string)
    requires Positive(lines)
    ensures UnitsOf(lines, sku) >= 0
    ensures (exists i :: 0 <= i < |lines| && lines[i].sku == sku) ==> UnitsOf(lines, sku) > 0
  {
    if lines != [] {
      var n := |lines| - 1;
      UnitsOfPositive(lines[..n], sku);
      if i :| 0 <= i < |lines| && lines[i].sku == sku {
        if i < n { assert lines[..n][i].sku == sku; }
      }
    }
  }

  lemma {:induction false} TranslatedUnits(lines: seq<InboundLine>, lookups: seq<Lookup>)
    requires |lookups| >= |lines| && TranslateLines(lines, lookups).Ok?
    ensures Units(TranslateLines(lines, lookups).value) == InboundUnits(lines)
    ensures Positive(TranslateLines(lines, lookups).value)
  {
    if lines != [] {
      TranslatedUnits(lines[1..], lookups[1..]);
      UnitsCons(TranslateLine(lines[0], lookups[0]).value, TranslateLines(lines[1..], lookups[1..]).value);
    }
  }

  lemma {:induction false} UnitsCons(l: Line, ls: seq<Line>)
    ensures Units([l] + ls) == l.quantity + Units(ls)
  {
    if ls == [] {
      assert ([l] + ls)[..0] == [];
    } else {
      UnitsCons(l, ls[..|ls| - 1]);
      assert ([l] + ls)[..|ls|] == [l] + ls[..|ls| - 1];
    }
  }

  /** What the planner is asked for conserves what the network asked for: exactly the translated SKUs,
      each with a positive quantity, and the same number of units in all. */
  lemma RequestConserves(lines: seq<InboundLine>, lookups: seq<Lookup>)
    requires |lookups| >= |lines| && TranslateLines(lines, lookups).Ok?
    ensures var q := Quantities(TranslateLines(lines, lookups).value);
      && (forall sku :: sku in q <==> exists i :: 0 <= i < |lines| && lookups[i] == Sku(sku))
      && (forall sku :: sku in q ==> q[sku] > 0)
      && Sum(q) == InboundUnits(lines)
  {
    var ls := TranslateLines(lines, lookups).value;
    TranslationVerdict(lines, lookups, NoLines);
    TranslatedUnits(lines, lookups);
    QuantitiesTotal(ls);
    forall sku
      ensures sku in Quantities(ls) <==> exists i :: 0 <= i < |lines| && lookups[i] == Sku(sku)
      ensures sku in Quantities(ls) ==> Quantities(ls)[sku] > 0
    {
      QuantitiesAt(ls, sku);
      UnitsOfPositive(ls, sku);
      if i :| 0 <= i < |ls| && ls[i].sku == sku {
        assert Ok(ls[i]) == TranslateLine(lines[i], lookups[i]);
        assert lookups[i] == Sku(sku);
      }
      if i :| 0 <= i < |lines| && lookups[i] == Sku(sku) {
        assert Ok(ls[i]) == TranslateLine(lines[i], lookups[i]);
        assert ls[i].sku == sku;
      }
    }
  }

  function Pairs(lines: seq<InboundLine>, lookups: seq<Lookup>): (p: seq<(InboundLine, Lookup)>)
    requires |lookups| == |lines|
    ensures |p| == |lines|
  {
    seq(|lines|, i requires 0 <= i < |lines| => (lines[i], lookups[i]))
  }

  lemma {:induction false} TranslatedMultiset(lines: seq<InboundLine>, lookups: seq<Lookup>, l: Line)
    requires |lookups| == |lines| && TranslateLines(lines, lookups).Ok?
    ensures multiset(TranslateLines(lines, lookups).value)[l] ==
            multiset(Pairs(lines, lookups))[(InboundLine(l.ref, l.product, l.quantity), Sku(l.sku))]
  {
    var ls := TranslateLines(lines, lookups).value;
    var ps := Pairs(lines, lookups);
    if lines != [] {
      TranslatedMultiset(lines[1..], lookups[1..], l);
      assert ps == [ps[0]] + Pairs(lines[1..], lookups[1..]);
      assert ls == [ls[0]] + TranslateLines(lines[1..], lookups[1..]).value;
    }
  }

  lemma TranslatedPermute(a: seq<InboundLine>, ka: seq<Lookup>, b: seq<InboundLine>, kb: seq<Lookup>)
    requires |a| == |ka| && |b| == |kb|
    requires multiset(Pairs(a, ka)) == multiset(Pairs(b, kb))
    requires TranslateLines(a, ka).Ok? && TranslateLines(b, kb).Ok?
    ensures multiset(TranslateLines(a, ka).value) == multiset(TranslateLines(b, kb).value)
  {
    var ma, mb := multiset(TranslateLines(a, ka).value), multiset(TranslateLines(b, kb).value);
    forall l: Line ensures ma[l] == mb[l] {
      TranslatedMultiset(a, ka, l);
      TranslatedMultiset(b, kb, l);
    }
  }

  lemma TranslatableTogether(a: seq<InboundLine>, ka: seq<Lookup>, b: seq<InboundLine>, kb: seq<Lookup>)
    requires |a| == |ka| && |b| == |kb|
    requires multiset(Pairs(a, ka)) == multiset(Pairs(b, kb))
    requires TranslateLines(a, ka).Ok?
    ensures TranslateLines(b, kb).Ok?
  {
    TranslationVerdict(a, ka, NoLines);
    forall j | 0 <= j < |b| ensures TranslateLine(b[j], kb[j]).Ok? {
      assert Pairs(b, kb)[j] in multiset(Pairs(a, ka));
      var i :| 0 <= i < |a| && Pairs(a, ka)[i] == Pairs(b, kb)[j];
      assert TranslateLine(a[i], ka[i]).Ok?;
    }
    match TranslateLines(b, kb)
    case Ok(_) =>
    case Err(e) => TranslationVerdict(b, kb, e);
  }

  /** The order in which the network lists the lines decides nothing: permuted lines are translatable
      together or not at all, and the planner is asked for the same. */
  lemma LineOrderIrrelevant(a: seq<InboundLine>, ka: seq<Lookup>, b: seq<InboundLine>, kb: seq<Lookup>)
    requires |a| == |ka| && |b| == |kb|
    requires multiset(Pairs(a, ka)) == multiset(Pairs(b, kb))
    ensures TranslateLines(a, ka).Ok? <==> TranslateLines(b, kb).Ok?
    ensures TranslateLines(a, ka).Ok? ==>
              Quantities(TranslateLines(a, ka).value) == Quantities(TranslateLines(b, kb).value)
  {
    if TranslateLines(a, ka).Ok? {
      TranslatableTogether(a, ka, b, kb);
      TranslatedPermute(a, ka, b, kb);
      QuantitiesPermute(TranslateLines(a, ka).value, TranslateLines(b, kb).value);
    } else if TranslateLines(b, kb).Ok? {
      TranslatableTogether(b, kb, a, ka);
    }
  }
}
