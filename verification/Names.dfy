/** Field names in Python's snake case and the wire's camel case. Letters are those of ASCII. */
module Names {
  predicate IsUpper(c: char) {
    'A' <= c <= 'Z'
  }

  predicate IsLower(c: char) {
    'a' <= c <= 'z'
  }

  function Upper(c: char): char {
    if IsLower(c) then (c as int - 32) as char else c
  }

  function Lower(c: char): char {
    if IsUpper(c) then (c as int + 32) as char else c
  }

  function Split(name: string): (parts: seq<string>)
    ensures |parts| >= 1
  {
    if name == "" then [""]
    else if name[0] == '_' then [""] + Split(name[1..])
    else
      var parts := Split(name[1..]);
      [[name[0]] + parts[0]] + parts[1..]
  }

  function Capitalised(part: string): string {
    if part == "" then "" else [Upper(part[0])] + part[1..]
  }

  function CapitalisedAll(parts: seq<string>): string {
    if parts == [] then "" else Capitalised(parts[0]) + CapitalisedAll(parts[1..])
  }

  function SnakeToCamel(name: string): string {
    Split(name)[0] + CapitalisedAll(Split(name)[1..])
  }

  /** An underscore before every capital that is not at the start, and all letters lower. */
  function Spread(name: string, start: bool): string {
    if name == "" then ""
    else (if IsUpper(name[0]) && !start then ['_', Lower(name[0])] else [Lower(name[0])]) + Spread(name[1..], false)
  }

  function CamelToSnake(name: string): string {
    Spread(name, true)
  }

  predicate RegularAt(name: string, i: nat, start: bool)
    requires i < |name|
  {
    !IsUpper(name[i]) && (name[i] == '_' ==> (i > 0 || !start) && i < |name| - 1 && IsLower(name[i + 1]))
  }

  /** No capitals, and every underscore stands between something and a lower-case letter. */
  predicate Regular(name: string) {
    forall i: nat | i < |name| :: RegularAt(name, i, true)
  }

  type FieldName = name: string | Regular(name)

  /** The same, for what is left of a name; `start` when nothing came before. */
  predicate RegularFrom(name: string, start: bool) {
    name == "" ||
    if name[0] == '_' then !start && |name| > 1 && IsLower(name[1]) && RegularFrom(name[2..], false)
    else !IsUpper(name[0]) && RegularFrom(name[1..], false)
  }

  lemma {:induction false} FromMeansAt(name: string, start: bool, i: nat)
    requires RegularFrom(name, start) && i < |name|
    ensures RegularAt(name, i, start)
  {
    var step := if name[0] == '_' then 2 else 1;
    if i >= step {
      FromMeansAt(name[step..], false, i - step);
    }
  }

  lemma {:induction false} AtMeansFrom(name: string, start: bool)
    requires forall i: nat | i < |name| :: RegularAt(name, i, start)
    ensures RegularFrom(name, start)
    decreases |name|
  {
    if name != "" {
      assert RegularAt(name, 0, start);
      var step := if name[0] == '_' then 2 else 1;
      forall i: nat | i < |name[step..]| ensures RegularAt(name[step..], i, false) {
        assert RegularAt(name, i + step, start);
      }
      AtMeansFrom(name[step..], false);
    }
  }

  lemma RegularFromStart(name: string)
    ensures RegularFrom(name, true) <==> Regular(name)
  {
    if RegularFrom(name, true) {
      forall i: nat | i < |name| ensures RegularAt(name, i, true) {
        FromMeansAt(name, true, i);
      }
    }
    if Regular(name) {
      AtMeansFrom(name, true);
    }
  }

  // ----- reading character by character -----

  /** `SnakeToCamel` on the rest of a name; `up` when an underscore was just dropped. */
  function Camel(name: string, up: bool): string {
    if name == "" then ""
    else if name[0] == '_' then Camel(name[1..], true)
    else [if up then Upper(name[0]) else name[0]] + Camel(name[1..], false)
  }

  lemma {:induction false} CamelIsSnakeToCamel(name: string)
    ensures Camel(name, false) == Split(name)[0] + CapitalisedAll(Split(name)[1..])
    ensures Camel(name, true) == CapitalisedAll(Split(name))
  {
    if name != "" {
      CamelIsSnakeToCamel(name[1..]);
      var parts := Split(name[1..]);
      if name[0] == '_' {
        assert Split(name)[1..] == parts;
      } else {
        assert Split(name)[0] == [name[0]] + parts[0] && Split(name)[1..] == parts[1..];
        assert Capitalised([name[0]] + parts[0]) == [Upper(name[0])] + parts[0];
        assert CapitalisedAll(Split(name)) == [Upper(name[0])] + (parts[0] + CapitalisedAll(parts[1..]));
      }
    }
  }

  lemma {:induction false} RegularReturns(name: string, start: bool)
    requires RegularFrom(name, start)
    ensures Spread(Camel(name, false), start) == name
  {
    if name != "" {
      if name[0] == '_' {
        RegularReturns(name[2..], false);
        var camel := Camel(name[2..], false);
        assert Camel(name[1..], true) == [Upper(name[1])] + camel;
        assert ([Upper(name[1])] + camel)[1..] == camel;
        assert name == ['_', name[1]] + name[2..];
      } else {
        RegularReturns(name[1..], false);
        var camel := Camel(name[1..], false);
        assert ([name[0]] + camel)[1..] == camel;
      }
    }
  }

  predicate NoCapitals(name: string) {
    forall i | 0 <= i < |name| :: !IsUpper(name[i])
  }

  lemma {:induction false} SpreadHasNoCapitals(name: string, start: bool)
    ensures NoCapitals(Spread(name, start))
  {
    if name != "" {
      SpreadHasNoCapitals(name[1..], false);
    }
  }

  /** Going there and back never makes a name longer, but for one underscore that was dropped before it. */
  lemma {:induction false} NotLonger(name: string, up: bool, start: bool)
    requires NoCapitals(name)
    ensures |Spread(Camel(name, up), start)| <= |name| + if up && !start then 1 else 0
  {
    if name != "" {
      if name[0] == '_' {
        NotLonger(name[1..], true, start);
      } else {
        NotLonger(name[1..], false, false);
        var camel := Camel(name[1..], false);
        var c := if up then Upper(name[0]) else name[0];
        assert ([c] + camel)[1..] == camel;
      }
    }
  }

  lemma {:induction false} ReturnsOnlyRegular(name: string, start: bool)
    requires NoCapitals(name) && Spread(Camel(name, false), start) == name
    ensures RegularFrom(name, start)
    decreases |name|
  {
    if name != "" && name[0] == '_' {
      UnderscoreIsRegular(name, start);
      var camel := Camel(name[2..], false);
      assert Camel(name[1..], true) == [Upper(name[1])] + camel;
      assert ([Upper(name[1])] + camel)[1..] == camel;
      assert Spread(camel, false) == name[2..];
      ReturnsOnlyRegular(name[2..], false);
    } else if name != "" {
      var camel := Camel(name[1..], false);
      assert ([name[0]] + camel)[1..] == camel;
      assert Spread(camel, false) == name[1..];
      ReturnsOnlyRegular(name[1..], false);
    }
  }

  lemma UnderscoreIsRegular(name: string, start: bool)
    requires NoCapitals(name) && Spread(Camel(name, false), start) == name && name != "" && name[0] == '_'
    ensures !start && |name| > 1 && IsLower(name[1])
  {
    NotLonger(name[1..], true, start);
    if |name| > 1 {
      NotLonger(name[2..], true, start);
    }
  }

  /** Converting back undoes the conversion exactly for regular names. */
  lemma InverseExactlyWhen(name: string)
    ensures CamelToSnake(SnakeToCamel(name)) == name <==> Regular(name)
  {
    RegularFromStart(name);
    CamelIsSnakeToCamel(name);
    if RegularFrom(name, true) {
      RegularReturns(name, true);
    }
    if CamelToSnake(SnakeToCamel(name)) == name {
      SpreadHasNoCapitals(Camel(name, false), true);
      ReturnsOnlyRegular(name, true);
    }
  }
}
