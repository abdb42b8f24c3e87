/** Port specifications (src/pytest_elasticsearch/port.py): an exact port,
    `?` for any free port, or a comma-separated list of ports and inclusive
    `start-end` ranges. */
module Port {
  import opened Wrappers
  import opened Text
  import opened Decimal

  /** The errors `parse_ports` raises: `InvalidPortsDefinition` carrying the
      whole specification, or the `ValueError` of `int()` on a range bound,
      carrying that bound. */
  datatype PortsError = InvalidPortsDefinition(ports: string) | ValueError(literal: string)

  /** What `parse_ports` gives back: None for `?`, a set of ports, or the
      error it raises. */
  datatype Parsed = Unspecified | Ports(ports: set<int>) | Raised(error: PortsError)

  /** The ports `start..end` inclusive, as `range(start, end + 1)`. */
  function Span(start: int, end: int): (ports: set<int>)
    ensures forall n :: n in ports <==> start <= n <= end
    decreases end - start
  {
    if end < start then {} else {start} + Span(start + 1, end)
  }

  /** The ports of one comma-separated item of `ports`. An item without '-'
      must be an integer. A range must have exactly two parts, its end must
      not sort before its start as text, and both bounds must then be
      integers. */
  function ItemPorts(ports: string, item: string): Result<set<int>, PortsError>
  {
    if '-' !in item then
      match ParseInt(item)
      case None => Err(InvalidPortsDefinition(ports))
      case Some(n) => Ok({n})
    else
      var parts := SplitOn(item, '-');
      if |parts| != 2 then Err(InvalidPortsDefinition(ports))
      else if LexLess(parts[1], parts[0]) then Err(InvalidPortsDefinition(ports))
      else match (ParseInt(parts[0]), ParseInt(parts[1]))
        case (None, _) => Err(ValueError(parts[0]))
        case (_, None) => Err(ValueError(parts[1]))
        case (Some(start), Some(end)) => Ok(Span(start, end))
  }

  /** The union of the items' ports, or the error of the first item that
      fails; the items are taken in order. */
  function Accumulate(ports: string, items: seq<string>): Result<set<int>, PortsError>
    decreases |items|
  {
    if |items| == 0 then Ok({})
    else
      match Accumulate(ports, items[..|items| - 1])
      case Err(e) => Err(e)
      case Ok(found) =>
        match ItemPorts(ports, items[|items| - 1])
        case Err(e) => Err(e)
        case Ok(more) => Ok(found + more)
  }

  /** What `parse_ports(ports)` returns or raises. */
  function ParsePortsSpec(ports: string): Parsed
  {
    if ports == "?" then Unspecified
    else
      match Accumulate(ports, SplitOn(ports, ','))
      case Err(e) => Raised(e)
      case Ok(found) => Ports(found)
  }

  /** `parse_ports`: the loop over the comma-separated items, adding each
      item's ports to the set and stopping at the first item that raises. */
  method ParsePorts(ports: string) returns (r: Parsed)
    ensures r == ParsePortsSpec(ports)
  {
    if ports == "?" {
      return Unspecified;
    }
    var items := SplitOn(ports, ',');
    var portSet: set<int> := {};
    var i := 0;
    while i < |items|
      invariant 0 <= i <= |items|
      invariant Accumulate(ports, items[..i]) == Ok(portSet)
    {
      var p := items[i];
      assert items[..i + 1][..i] == items[..i];
      if '-' !in p {
        var n := ParseInt(p);
        if n.None? {
          FirstErrorStays(ports, items, i + 1);
          return Raised(InvalidPortsDefinition(ports));
        }
        portSet := portSet + {n.value};
      } else {
        var parts := SplitOn(p, '-');
        if |parts| != 2 {
          FirstErrorStays(ports, items, i + 1);
          return Raised(InvalidPortsDefinition(ports));
        }
        var start, end := parts[0], parts[1];
        if LexLess(end, start) {
          FirstErrorStays(ports, items, i + 1);
          return Raised(InvalidPortsDefinition(ports));
        }
        var low, high := ParseInt(start), ParseInt(end);
        if low.None? {
          FirstErrorStays(ports, items, i + 1);
          return Raised(ValueError(start));
        }
        if high.None? {
          FirstErrorStays(ports, items, i + 1);
          return Raised(ValueError(end));
        }
        portSet := portSet + Span(low.value, high.value);
      }
      i := i + 1;
    }
    assert items[..i] == items;
    return Ports(portSet);
  }

  /** Once an item fails, the items after it change nothing. */
  lemma {:induction false} FirstErrorStays(ports: string, items: seq<string>, k: nat)
    requires k <= |items| && Accumulate(ports, items[..k]).Err?
    ensures Accumulate(ports, items) == Accumulate(ports, items[..k])
    decreases |items| - k
  {
    if k < |items| {
      assert items[..k + 1][..k] == items[..k];
      FirstErrorStays(ports, items, k + 1);
    } else {
      assert items[..k] == items;
    }
  }

  /** `Accumulate` agrees with a definition by cases: it succeeds exactly
      when every item does, with the union of their ports, and otherwise
      fails with the error of the first item that fails. */
  lemma AccumulateSpec(ports: string, items: seq<string>)
    ensures var r := Accumulate(ports, items);
      && (r.Ok? <==> AllValid(ports, items))
      && (r.Ok? ==> forall n :: n in r.value <==>
            exists i :: 0 <= i < |items| && n in ItemPorts(ports, items[i]).value)
      && (r.Err? ==> exists i :: FirstFailure(ports, items, i) && r.error == ItemPorts(ports, items[i]).error)
  {
    AccumulateOk(ports, items);
    AccumulateErr(ports, items);
  }

  lemma {:induction false} AccumulateOk(ports: string, items: seq<string>)
    ensures var r := Accumulate(ports, items);
      && (r.Ok? <==> AllValid(ports, items))
      && (r.Ok? ==> forall n :: n in r.value <==>
            exists i :: 0 <= i < |items| && n in ItemPorts(ports, items[i]).value)
    decreases |items|
  {
    if |items| > 0 {
      var last := |items| - 1;
      var init := items[..last];
      AccumulateOk(ports, init);
      assert forall i :: 0 <= i < last ==> items[i] == init[i];
      if Accumulate(ports, items).Ok? {
        assert AllValid(ports, items);
        AccumulateUnionStep(ports, items);
      } else if Accumulate(ports, init).Ok? {
        assert ItemPorts(ports, items[last]).Err?;
      }
    }
  }

  /** One step of `AccumulateOk`: the last item's ports join the union. */
  lemma AccumulateUnionStep(ports: string, items: seq<string>)
    requires |items| > 0 && Accumulate(ports, items).Ok? && AllValid(ports, items)
    requires var init := items[..|items| - 1];
      forall n :: n in Accumulate(ports, init).value <==>
        exists i :: 0 <= i < |init| && n in ItemPorts(ports, init[i]).value
    ensures forall n :: n in Accumulate(ports, items).value <==>
      exists i :: 0 <= i < |items| && n in ItemPorts(ports, items[i]).value
  {
    var last := |items| - 1;
    var init := items[..last];
    assert forall i :: 0 <= i < last ==> items[i] == init[i];
    var found := Accumulate(ports, init).value;
    var more := ItemPorts(ports, items[last]).value;
    assert Accumulate(ports, items).value == found + more;
    forall n ensures n in found + more <==> exists i :: 0 <= i < |items| && n in ItemPorts(ports, items[i]).value {
      if n in more {
        assert 0 <= last < |items|;
      }
    }
  }

  lemma {:induction false} AccumulateErr(ports: string, items: seq<string>)
    ensures var r := Accumulate(ports, items);
      r.Err? ==> exists i :: FirstFailure(ports, items, i) && r.error == ItemPorts(ports, items[i]).error
    decreases |items|
  {
    if |items| > 0 {
      var last := |items| - 1;
      var init := items[..last];
      assert forall i :: 0 <= i < last ==> items[i] == init[i];
      if Accumulate(ports, init).Err? {
        AccumulateErr(ports, init);
        var i :| FirstFailure(ports, init, i) && Accumulate(ports, init).error == ItemPorts(ports, init[i]).error;
        assert FirstFailure(ports, items, i);
      } else if ItemPorts(ports, items[last]).Err? {
        AccumulateOk(ports, init);
        assert FirstFailure(ports, items, last);
      }
    }
  }

  /** Every item is valid. */
  predicate AllValid(ports: string, items: seq<string>)
  {
    forall i :: 0 <= i < |items| ==> ItemPorts(ports, items[i]).Ok?
  }

  /** Item `i` is the first item that fails. */
  predicate FirstFailure(ports: string, items: seq<string>, i: int)
  {
    0 <= i < |items| && ItemPorts(ports, items[i]).Err?
    && forall j :: 0 <= j < i ==> ItemPorts(ports, items[j]).Ok?
  }

  /** The `ports` argument of `get_port`: an integer or a string. */
  datatype PortsArg = Number(n: int) | Text(text: string)

  /** What `get_port` settles on: a port used as given, or the candidates
      handed to `port_for.select_random` (None meaning any free port). */
  datatype PortChoice = Exact(port: int) | RandomFrom(candidates: Option<set<int>>)

  /** `get_port`: whatever `int()` accepts is used as it is, without any
      availability check; anything else goes through `parse_ports`, whose
      errors propagate. */
  method GetPort(ports: PortsArg) returns (r: Result<PortChoice, PortsError>)
    ensures ports.Number? ==> r == Ok(Exact(ports.n))
    ensures ports.Text? && ParseInt(ports.text).Some? ==> r == Ok(Exact(ParseInt(ports.text).value))
    ensures ports.Text? && ParseInt(ports.text).None? ==>
      var parsed := ParsePortsSpec(ports.text);
      && (r.Err? <==> parsed.Raised?)
      && (r.Err? ==> r.error == parsed.error)
      && (r.Ok? ==> r.value == RandomFrom(if parsed.Ports? then Some(parsed.ports) else None))
  {
    match ports
    case Number(n) =>
      return Ok(Exact(n));
    case Text(text) =>
      var n := ParseInt(text);
      if n.Some? {
        return Ok(Exact(n.value));
      }
      var parsed := ParsePorts(text);
      match parsed
      case Raised(e) =>
        r := Err(e);
      case Unspecified =>
        r := Ok(RandomFrom(None));
      case Ports(found) =>
        r := Ok(RandomFrom(Some(found)));
  }

  /** `parse_ports` on anything but `?`: the set of every port some item
      names when all items are valid (duplicates and overlaps collapse),
      and otherwise the error of the first invalid item. */
  lemma ParsePortsMeaning(ports: string)
    requires ports != "?"
    ensures ParsePortsSpec(ports).Ports? <==> AllValid(ports, SplitOn(ports, ','))
    ensures ParsePortsSpec(ports).Ports? ==> forall n :: n in ParsePortsSpec(ports).ports <==>
      exists i :: 0 <= i < |SplitOn(ports, ',')| && n in ItemPorts(ports, SplitOn(ports, ',')[i]).value
    ensures !ParsePortsSpec(ports).Ports? ==>
      && ParsePortsSpec(ports).Raised?
      && exists i :: FirstFailure(ports, SplitOn(ports, ','), i)
           && ParsePortsSpec(ports).error == ItemPorts(ports, SplitOn(ports, ',')[i]).error
  {
    var items := SplitOn(ports, ',');
    AccumulateSpec(ports, items);
  }

  /** `?` is only special as the whole specification: inside a list it is
      an item `int()` rejects. */
  lemma QueryInsideListRejected(ports: string, i: nat)
    requires ports != "?" && i < |SplitOn(ports, ',')| && SplitOn(ports, ',')[i] == "?"
    ensures ParsePortsSpec(ports).Raised?
  {
    var q := "?";
    assert '-' !in q;
    assert ItemPorts(ports, q) == Err(InvalidPortsDefinition(ports));
    ParsePortsMeaning(ports);
  }

  /** A trailing comma leaves an empty last item, which is rejected. */
  lemma TrailingCommaRejected(ports: string)
    requires |ports| > 0 && ports[|ports| - 1] == ','
    ensures ParsePortsSpec(ports).Raised?
  {
    var items := SplitOn(ports, ',');
    LastItemEmpty(ports);
    assert ItemPorts(ports, items[|items| - 1]) == Err(InvalidPortsDefinition(ports));
    ParsePortsMeaning(ports);
  }

  /** The last item of a split is empty exactly when the text ends with the
      separator. */
  lemma {:induction false} LastItemEmpty(s: string)
    requires |s| > 0 && s[|s| - 1] == ','
    ensures SplitOn(s, ',')[|SplitOn(s, ',')| - 1] == ""
    decreases |s|
  {
    var k := IndexOf(s, ',');
    var rest := s[k + 1..];
    var tail := SplitOn(rest, ',');
    assert SplitOn(s, ',') == [s[..k]] + tail;
    if |rest| > 0 {
      assert rest[|rest| - 1] == s[|s| - 1];
      LastItemEmpty(rest);
    } else {
      assert IndexOf(rest, ',') == 0;
    }
  }

  /** `parse_ports` gives None exactly for `?`. */
  lemma UnspecifiedOnlyForQuery(ports: string)
    ensures ParsePortsSpec(ports) == Unspecified <==> ports == "?"
  {
  }

  /** An item without '-' yields its one port when `int()` accepts it, and
      otherwise the whole specification comes back in the error. */
  lemma SingleItem(ports: string, item: string)
    requires '-' !in item
    ensures ParseInt(item).Some? ==> ItemPorts(ports, item) == Ok({ParseInt(item).value})
    ensures ParseInt(item).None? ==> ItemPorts(ports, item) == Err(InvalidPortsDefinition(ports))
  {
  }

  /** A specification without commas is a single item. */
  lemma OneItem(ports: string)
    requires ',' !in ports && ports != "?"
    ensures ItemPorts(ports, ports).Err? ==> ParsePortsSpec(ports) == Raised(ItemPorts(ports, ports).error)
    ensures ItemPorts(ports, ports).Ok? ==> ParsePortsSpec(ports) == Ports(ItemPorts(ports, ports).value)
  {
    var items := SplitOn(ports, ',');
    assert items == [ports];
    assert items[..0] == [];
    assert Accumulate(ports, items[..0]) == Ok({});
  }

  /** An item with one '-' splits into its two bounds. */
  lemma TwoBounds(start: string, end: string)
    requires '-' !in start && '-' !in end
    ensures SplitOn(start + "-" + end, '-') == [start, end]
  {
    SplitOnFirst(start, '-', end);
    assert SplitOn(end, '-') == [end];
  }

  /** A range item whose bounds pass the text check and are integers. */
  lemma RangeItem(ports: string, start: string, end: string, low: int, high: int)
    requires '-' !in start && '-' !in end
    requires !LexLess(end, start) && ParseInt(start) == Some(low) && ParseInt(end) == Some(high)
    ensures ItemPorts(ports, start + "-" + end) == Ok(Span(low, high))
  {
    TwoBounds(start, end);
    assert (start + "-" + end)[|start|] == '-';
  }

  /** A range item whose end sorts before its start as text. */
  lemma DescendingItem(ports: string, start: string, end: string)
    requires '-' !in start && '-' !in end && LexLess(end, start)
    ensures ItemPorts(ports, start + "-" + end) == Err(InvalidPortsDefinition(ports))
  {
    TwoBounds(start, end);
    assert (start + "-" + end)[|start|] == '-';
  }

  lemma Numerals()
    ensures ParseInt("999") == Some(999) && ParseInt("1000") == Some(1000) && ParseInt("7") == Some(7)
  {
    var nine, ninety, thousand := "999", "99", "1000";
    assert nine[..2] == ninety && ninety[..1] == "9";
    assert ValueOf("9") == 9 && ValueOf(ninety) == 99 && ValueOf(nine) == 999;
    assert IsDecimal(nine);
    assert thousand[..3] == "100" && "100"[..2] == "10" && "10"[..1] == "1";
    assert ValueOf("1") == 1 && ValueOf("10") == 10 && ValueOf("100") == 100 && ValueOf(thousand) == 1000;
  }

  /** The bounds are compared as text first: "1000" sorts before "999", so
      `999-1000` is rejected with the whole specification. */
  lemma TextualDescentRejected()
    ensures ParsePortsSpec(TextDescending) == Raised(InvalidPortsDefinition(TextDescending))
  {
    TextDescendingShape();
    DescendingItem(TextDescending, "999", "1000");
    OneItem(TextDescending);
  }

  const TextDescending := "999-1000"

  lemma TextDescendingShape()
    ensures TextDescending == "999" + "-" + "1000"
    ensures ',' !in TextDescending && TextDescending != "?"
    ensures LexLess("1000", "999")
  {
  }

  /** ... while `1000-999` passes the text check and holds no port. */
  lemma NumericDescentEmpty()
    ensures ParsePortsSpec(NumberDescending) == Ports({})
  {
    NumberDescendingShape();
    Numerals();
    RangeItem(NumberDescending, "1000", "999", 1000, 999);
    OneItem(NumberDescending);
    assert Span(1000, 999) == {};
  }

  const NumberDescending := "1000-999"

  lemma NumberDescendingShape()
    ensures NumberDescending == "1000" + "-" + "999"
    ensures ',' !in NumberDescending && NumberDescending != "?"
    ensures !LexLess("999", "1000")
  {
  }

  /** A range whose bounds are equal holds one port. */
  lemma OnePortRange()
    ensures ParsePortsSpec(SamePort) == Ports({7})
  {
    SamePortShape();
    Numerals();
    RangeItem(SamePort, "7", "7", 7, 7);
    OneItem(SamePort);
    assert Span(7, 7) == {7};
  }

  const SamePort := "7-7"

  lemma SamePortShape()
    ensures SamePort == "7" + "-" + "7"
    ensures ',' !in SamePort && SamePort != "?"
    ensures !LexLess("7", "7")
  {
  }

  /** A range of three parts is rejected with the whole specification. */
  lemma ThreePartRange()
    ensures ParsePortsSpec(ThreeParts) == Raised(InvalidPortsDefinition(ThreeParts))
  {
    ThreePartsShape();
    ExtraDashItem(ThreeParts, "1", "2", "3");
    OneItem(ThreeParts);
  }

  const ThreeParts := "1-2-3"

  lemma ThreePartsShape()
    ensures ThreeParts == "1" + "-" + "2" + "-" + "3"
    ensures ',' !in ThreeParts && ThreeParts != "?"
  {
  }

  /** An item with a second '-' (written `a-b-rest`, with `a` and `b` the
      text before the first and between the first two) splits into more
      than two parts and is rejected, whatever `rest` holds. */
  lemma ExtraDashItem(ports: string, a: string, b: string, rest: string)
    requires '-' !in a && '-' !in b
    ensures |SplitOn(a + "-" + b + "-" + rest, '-')| > 2
    ensures ItemPorts(ports, a + "-" + b + "-" + rest) == Err(InvalidPortsDefinition(ports))
  {
    var tail := b + "-" + rest;
    var item := a + "-" + b + "-" + rest;
    assert item == a + "-" + tail;
    SplitOnFirst(b, '-', rest);
    SplitOnFirst(a, '-', tail);
    assert item[|a|] == '-';
  }

  /** A range that passes the text check but whose start is not an integer
      raises `int()`'s ValueError naming the start, not
      InvalidPortsDefinition. */
  lemma NonIntegerStart(ports: string, start: string, end: string)
    requires '-' !in start && '-' !in end
    requires !LexLess(end, start) && ParseInt(start).None?
    ensures ItemPorts(ports, start + "-" + end) == Err(ValueError(start))
  {
    TwoBounds(start, end);
    assert (start + "-" + end)[|start|] == '-';
  }

  /** With an integer start, a non-integer end raises ValueError naming the
      end. */
  lemma NonIntegerEnd(ports: string, start: string, end: string)
    requires '-' !in start && '-' !in end
    requires !LexLess(end, start) && ParseInt(start).Some? && ParseInt(end).None?
    ensures ItemPorts(ports, start + "-" + end) == Err(ValueError(end))
  {
    TwoBounds(start, end);
    assert (start + "-" + end)[|start|] == '-';
  }

  /** `5-x` passes the text check ("x" does not sort before "5") and then
      fails in `int("x")`: the error is a ValueError naming "x". */
  lemma NonNumericEndRaisesValueError()
    ensures ParsePortsSpec(NonNumericEnd) == Raised(ValueError("x"))
  {
    NonNumericEndShape();
    NonIntegerEnd(NonNumericEnd, "5", "x");
    OneItem(NonNumericEnd);
  }

  const NonNumericEnd := "5-x"

  lemma NonNumericEndShape()
    ensures NonNumericEnd == "5" + "-" + "x"
    ensures ',' !in NonNumericEnd && NonNumericEnd != "?"
    ensures !LexLess("x", "5")
    ensures ParseInt("5") == Some(5) && ParseInt("x") == None
  {
    assert "5"[..0] == [];
  }
}
