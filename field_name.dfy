/**
 * `flattenFieldName`: the validator's dotted form of an arrayed field name
 * (`foo[bar][baz]` becomes `foo.bar.baz`, `foo[]` becomes `foo`, `foo[0]`
 * becomes `foo.0`). The source does this with `preg_replace_callback` on the
 * ungreedy pattern `\[(.*)\]`: every `[` that is followed, on the same line,
 * by a `]` is replaced together with that first `]` and the text between.
 */
module FieldName {
  import opened Php

  /**
   * The position of the first `]` at or after `i`, provided no line break
   * comes before it (`.` does not match a newline).
   */
  function CloseFrom(s: string, i: nat): (r: Option<nat>)
    requires i <= |s|
    ensures r.Some? ==> i <= r.value < |s| && s[r.value] == ']'
    ensures r.Some? ==> forall k :: i <= k < r.value ==> s[k] != ']' && s[k] != '\n'
    decreases |s| - i
  {
    if i == |s| then None
    else if s[i] == ']' then Some(i)
    else if s[i] == '\n' then None
    else CloseFrom(s, i + 1)
  }

  /**
   * What the callback returns for one captured key: `.key` when the key is
   * non-empty (the `=== '0'` test rescues the key "0", which `empty`
   * considers empty), and nothing, i.e. deletion, otherwise.
   */
  function Segment(key: string): (r: string)
    ensures r == if key == "" then "" else "." + key
  {
    if Truthy(Str(key)) || key == "0" then "." + key else ""
  }

  /**
   * `flattenFieldName($field)`: never longer than the name. Without any `]`
   * the pattern never matches, so the name comes back unchanged, stray `[`
   * included.
   */
  function Flatten(field: string): (r: string)
    ensures |r| <= |field|
    ensures ']' !in field ==> r == field
    decreases |field|
  {
    if field == [] then []
    else if field[0] == '[' then
      match CloseFrom(field, 1)
      case Some(j) => Segment(field[1..j]) + Flatten(field[j + 1..])
      case None => assert ']' !in field ==> ']' !in field[1..]; [field[0]] + Flatten(field[1..])
    else [field[0]] + Flatten(field[1..])
  }

  // ---------------------------------------------------------------------
  // Reference definition: a name built from a base and bracketed keys

  /** `base[k1][k2]...` */
  datatype ArrayedName = ArrayedName(base: string, keys: seq<string>)

  /** The names the validator's convention covers: no `[` in the base, keys on one line without `]`. */
  predicate WellFormed(n: ArrayedName) {
    && '[' !in n.base
    && forall k :: 0 <= k < |n.keys| ==> ']' !in n.keys[k] && '\n' !in n.keys[k]
  }

  function Brackets(keys: seq<string>): string {
    if keys == [] then "" else "[" + keys[0] + "]" + Brackets(keys[1..])
  }

  function Dots(keys: seq<string>): string {
    if keys == [] then "" else Segment(keys[0]) + Dots(keys[1..])
  }

  /** The name as written in the form. */
  function Render(n: ArrayedName): string {
    n.base + Brackets(n.keys)
  }

  /** The name as the validator keys it: each key becomes `.key`, empty keys vanish. */
  function Dotted(n: ArrayedName): string {
    n.base + Dots(n.keys)
  }

  // ---------------------------------------------------------------------
  // Properties

  /** The sequence facts the copying proofs need, proved apart from `Flatten`. */
  lemma ConcatFacts(a: string, b: string, c: string)
    ensures a + (b + c) == (a + b) + c
    ensures a != [] ==> a == [a[0]] + a[1..] && (a + b)[0] == a[0] && (a + b)[1..] == a[1..] + b
  {
  }

  /** Every character of a slice is a character of the whole. */
  lemma SliceMembers(s: string, i: nat, j: nat)
    requires i <= j <= |s|
    ensures forall c :: c in s[i..j] ==> c in s
  {
  }

  lemma FlattenPlainStep(s: string)
    requires s != [] && s[0] != '['
    ensures Flatten(s) == [s[0]] + Flatten(s[1..])
  {
  }

  /** A prefix without `[` is copied unchanged. */
  lemma {:induction false} FlattenPlainPrefix(prefix: string, rest: string)
    requires '[' !in prefix
    ensures Flatten(prefix + rest) == prefix + Flatten(rest)
    decreases |prefix|
  {
    if prefix == [] {
      assert prefix + rest == rest;
    } else {
      ConcatFacts(prefix, rest, []);
      ConcatFacts([prefix[0]], prefix[1..], Flatten(rest));
      FlattenPlainStep(prefix + rest);
      FlattenPlainPrefix(prefix[1..], rest);
    }
  }

  /** The only character flattening adds is the dot. */
  lemma {:induction false} FlattenOnlyAddsDots(field: string)
    ensures forall c :: c in Flatten(field) ==> c in field || c == '.'
    decreases |field|
  {
    if field != [] {
      if field[0] == '[' && CloseFrom(field, 1).Some? {
        var j := CloseFrom(field, 1).value;
        FlattenOnlyAddsDots(field[j + 1..]);
        SliceMembers(field, 1, j);
        SliceMembers(field, j + 1, |field|);
      } else {
        FlattenOnlyAddsDots(field[1..]);
        SliceMembers(field, 1, |field|);
      }
    }
  }

  /** A name with no brackets at all is returned unchanged. */
  lemma FlattenNoBrackets(field: string)
    requires '[' !in field
    ensures Flatten(field) == field
  {
    FlattenPlainPrefix(field, "");
    assert field + "" == field;
  }

  lemma {:induction false} CloseFromKey(s: string, key: string, i: nat)
    requires ']' !in key && '\n' !in key
    requires 1 <= i <= |key| + 1
    requires |s| > |key| + 1 && s[1..|key| + 1] == key && s[|key| + 1] == ']'
    ensures CloseFrom(s, i) == Some(|key| + 1)
    decreases |key| + 1 - i
  {
    if i < |key| + 1 {
      assert s[i] == key[i - 1];
      CloseFromKey(s, key, i + 1);
    }
  }

  /** One bracketed key at the front is replaced by its segment. */
  lemma FlattenBracketedKey(key: string, rest: string)
    requires ']' !in key && '\n' !in key
    ensures Flatten("[" + key + "]" + rest) == Segment(key) + Flatten(rest)
  {
    var s := "[" + key + "]" + rest;
    assert s[1..|key| + 1] == key;
    assert s[|key| + 1] == ']';
    CloseFromKey(s, key, 1);
    assert s[1..|key| + 1] == key && s[|key| + 2..] == rest;
  }

  lemma {:induction false} FlattenBrackets(keys: seq<string>)
    requires forall k :: 0 <= k < |keys| ==> ']' !in keys[k] && '\n' !in keys[k]
    ensures Flatten(Brackets(keys)) == Dots(keys)
  {
    if keys != [] {
      FlattenBrackets(keys[1..]);
      assert Brackets(keys) == "[" + keys[0] + "]" + Brackets(keys[1..]);
      FlattenBracketedKey(keys[0], Brackets(keys[1..]));
    }
  }

  /** Flattening a well-formed arrayed name gives its dotted form. */
  lemma FlattenRendered(n: ArrayedName)
    requires WellFormed(n)
    ensures Flatten(Render(n)) == Dotted(n)
  {
    FlattenPlainPrefix(n.base, Brackets(n.keys));
    FlattenBrackets(n.keys);
  }

  /** A name with two keys, rendered and dotted. */
  lemma TwoKeys(base: string, a: string, b: string)
    requires a != "" && b != ""
    ensures Render(ArrayedName(base, [a, b])) == base + "[" + a + "][" + b + "]"
    ensures Dotted(ArrayedName(base, [a, b])) == base + "." + a + "." + b
  {
    assert [a, b][1..] == [b] && [b][1..] == [];
    assert Brackets([b]) == "[" + b + "]";
    assert Brackets([a, b]) == "[" + a + "]" + ("[" + b + "]");
    assert Dots([b]) == "." + b;
    assert Dots([a, b]) == "." + a + ("." + b);
  }

  /** The names `base[]` and `base[0]`, rendered and dotted. */
  lemma EmptyAndZeroKey(base: string)
    ensures Render(ArrayedName(base, [""])) == base + "[]"
    ensures Dotted(ArrayedName(base, [""])) == base
    ensures Render(ArrayedName(base, ["0"])) == base + "[0]"
    ensures Dotted(ArrayedName(base, ["0"])) == base + ".0"
  {
    assert [""][1..] == [] && ["0"][1..] == [];
    assert "[" + "" + "]" == "[]" && "[" + "0" + "]" == "[0]";
  }

  /** The documented nested case: `foo[bar][baz]` becomes `foo.bar.baz`. */
  lemma FlattenNested(base: string, a: string, b: string)
    requires '[' !in base
    requires a != "" && ']' !in a && '\n' !in a
    requires b != "" && ']' !in b && '\n' !in b
    ensures Flatten(base + "[" + a + "][" + b + "]") == base + "." + a + "." + b
  {
    TwoKeys(base, a, b);
    FlattenRendered(ArrayedName(base, [a, b]));
  }

  /** `[]` is deleted and the key `0` survives. */
  lemma FlattenEmptyAndZeroKeys(base: string)
    requires '[' !in base
    ensures Flatten(base + "[]") == base
    ensures Flatten(base + "[0]") == base + ".0"
  {
    EmptyAndZeroKey(base);
    FlattenRendered(ArrayedName(base, [""]));
    FlattenRendered(ArrayedName(base, ["0"]));
  }
}
