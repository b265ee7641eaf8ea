/** The two pieces of Python's str API the core relies on:
    `str.format` with named fields, and `str.split` on a one-character separator. */
module Strings {
  import opened PyValues

  /** Named replacement fields for `str.format`, searched in order. */
  type Fields = seq<(string, string)>

  function Placeholder(name: string): string {
    "{" + name + "}"
  }

  /** The field whose placeholder `{name}` starts s, if any (the first in order). */
  function FieldAt(s: string, fields: Fields): (r: Option<(string, string)>)
    ensures r.Some? ==> r.value in fields && Placeholder(r.value.0) <= s && s[0] == '{'
    ensures r.None? ==> forall f :: f in fields ==> !(Placeholder(f.0) <= s)
  {
    if fields == [] then None
    else if Placeholder(fields[0].0) <= s then Some(fields[0])
    else FieldAt(s, fields[1..])
  }

  /** `s.format(**fields)`: one left-to-right pass that replaces each `{name}`
      of a given field by its value; substituted text is not scanned again. */
  function Format(s: string, fields: Fields): string
    decreases |s|
  {
    if s == [] then []
    else match FieldAt(s, fields)
      case Some(f) => f.1 + Format(s[|Placeholder(f.0)|..], fields)
      case None => [s[0]] + Format(s[1..], fields)
  }

  /** c cannot occur inside a placeholder after its opening brace. */
  predicate NeverInsideField(c: char, fields: Fields) {
    c != '}' && forall f :: f in fields ==> c !in f.0
  }

  lemma {:induction false} FieldAtPrefix(a: string, s: string, fields: Fields)
    requires a <= s
    requires FieldAt(s, fields).Some? && |Placeholder(FieldAt(s, fields).value.0)| <= |a|
    ensures FieldAt(a, fields) == FieldAt(s, fields)
  {
    if Placeholder(fields[0].0) <= s {
      assert Placeholder(fields[0].0) <= a;
    } else {
      assert !(Placeholder(fields[0].0) <= a);
      FieldAtPrefix(a, s, fields[1..]);
    }
  }

  /** Field names as Python keyword arguments have them: distinct, and
      without a closing brace. */
  predicate WellNamed(fields: Fields) {
    && (forall i, j :: 0 <= i < j < |fields| ==> fields[i].0 != fields[j].0)
    && (forall i :: 0 <= i < |fields| ==> '}' !in fields[i].0)
  }

  /** Text without an opening brace is copied unchanged. */
  lemma {:induction false} FormatTextThen(a: string, rest: string, fields: Fields)
    requires '{' !in a
    ensures Format(a + rest, fields) == a + Format(rest, fields)
  {
    if a != [] {
      var s := a + rest;
      assert s[0] == a[0] && a[0] in a;
      assert FieldAt(s, fields).None?;
      assert s[1..] == a[1..] + rest;
      assert '{' !in a[1..] by { assert forall c :: c in a[1..] ==> c in a; }
      FormatTextThen(a[1..], rest, fields);
      assert Format(s, fields) == [a[0]] + Format(a[1..] + rest, fields);
      assert [a[0]] + (a[1..] + Format(rest, fields)) == a + Format(rest, fields);
    } else {
      assert a + rest == rest;
    }
  }

  lemma FormatText(a: string, fields: Fields)
    requires '{' !in a
    ensures Format(a, fields) == a
  {
    FormatTextThen(a, "", fields);
    assert a + "" == a;
  }

  /** Two different brace-free names: neither placeholder starts with the other. */
  lemma PlaceholderNotPrefix(other: string, name: string, rest: string)
    requires other != name && '}' !in other && '}' !in name
    ensures !(Placeholder(other) <= Placeholder(name) + rest)
  {
    var p, s := Placeholder(other), Placeholder(name) + rest;
    if |other| < |name| {
      assert p[|other| + 1] == '}' && s[|other| + 1] == name[|other|];
      assert name[|other|] in name;
    } else if |other| > |name| {
      assert p[|name| + 1] == other[|name|] && s[|name| + 1] == '}';
      assert other[|name|] in other;
    } else {
      var k :| 0 <= k < |other| && other[k] != name[k];
      assert p[k + 1] == other[k] && s[k + 1] == name[k];
    }
  }

  lemma {:induction false} FieldAtNamed(name: string, value: string, rest: string, fields: Fields)
    requires WellNamed(fields) && (name, value) in fields
    ensures FieldAt(Placeholder(name) + rest, fields) == Some((name, value))
  {
    if fields[0] != (name, value) {
      var k :| 0 <= k < |fields| && fields[k] == (name, value);
      assert fields[0].0 != name;
      assert '}' !in fields[0].0;
      PlaceholderNotPrefix(fields[0].0, name, rest);
      assert (name, value) in fields[1..] by { assert fields[1..][k - 1] == fields[k]; }
      FieldAtNamed(name, value, rest, fields[1..]);
    }
  }

  /** A placeholder of a given field becomes that field's value. */
  lemma FormatFieldThen(name: string, value: string, rest: string, fields: Fields)
    requires WellNamed(fields) && (name, value) in fields
    ensures Format(Placeholder(name) + rest, fields) == value + Format(rest, fields)
  {
    FieldAtNamed(name, value, rest, fields);
    assert (Placeholder(name) + rest)[|Placeholder(name)|..] == rest;
  }

  lemma FormatField(name: string, value: string, fields: Fields)
    requires WellNamed(fields) && (name, value) in fields
    ensures Format(Placeholder(name), fields) == value
  {
    FormatFieldThen(name, value, "", fields);
    assert Placeholder(name) + "" == Placeholder(name);
    assert value + "" == value;
  }

  /** A placeholder at the start of a + b ends inside a when b starts with a
      character that cannot occur inside a placeholder. */
  lemma PlaceholderWithin(a: string, b: string, name: string)
    requires a != [] && Placeholder(name) <= a + b
    requires b != [] ==> b[0] != '}' && b[0] !in name
    ensures |Placeholder(name)| <= |a|
  {
    var p := Placeholder(name);
    if b != [] {
      forall i | 1 <= i < |p| ensures p[i] != b[0] {
        if i < |p| - 1 {
          assert p[i] == name[i - 1];
        }
      }
      assert (a + b)[|a|] == b[0];
    }
  }

  /** Formatting distributes over a split point that no placeholder can span. */
  lemma {:induction false} FormatAppend(a: string, b: string, fields: Fields)
    requires b != [] ==> NeverInsideField(b[0], fields)
    ensures Format(a + b, fields) == Format(a, fields) + Format(b, fields)
    decreases |a|, 1
  {
    if a == [] {
      assert a + b == b;
      assert Format(a, fields) == [];
    } else if FieldAt(a + b, fields).Some? {
      FormatAppendField(a, b, fields);
    } else {
      FormatAppendText(a, b, fields);
    }
  }

  /** FormatAppend when a placeholder starts a + b: it lies within a. */
  lemma {:induction false} FormatAppendField(a: string, b: string, fields: Fields)
    requires b != [] ==> NeverInsideField(b[0], fields)
    requires a != [] && FieldAt(a + b, fields).Some?
    ensures Format(a + b, fields) == Format(a, fields) + Format(b, fields)
    decreases |a|, 0
  {
    var s := a + b;
    var f := FieldAt(s, fields).value;
    var n := |Placeholder(f.0)|;
    PlaceholderWithin(a, b, f.0);
    FieldAtPrefix(a, s, fields);
    assert s[n..] == a[n..] + b;
    FormatAppend(a[n..], b, fields);
    calc {
      Format(s, fields);
      f.1 + Format(a[n..] + b, fields);
      f.1 + (Format(a[n..], fields) + Format(b, fields));
      (f.1 + Format(a[n..], fields)) + Format(b, fields);
      Format(a, fields) + Format(b, fields);
    }
  }

  /** FormatAppend when no placeholder starts a + b: its first character is
      copied. */
  lemma {:induction false} FormatAppendText(a: string, b: string, fields: Fields)
    requires b != [] ==> NeverInsideField(b[0], fields)
    requires a != [] && FieldAt(a + b, fields).None?
    ensures Format(a + b, fields) == Format(a, fields) + Format(b, fields)
    decreases |a|, 0
  {
    var s := a + b;
    assert FieldAt(a, fields).None?;
    assert s[0] == a[0] && s[1..] == a[1..] + b;
    FormatAppend(a[1..], b, fields);
    calc {
      Format(s, fields);
      [a[0]] + Format(a[1..] + b, fields);
      [a[0]] + (Format(a[1..], fields) + Format(b, fields));
      ([a[0]] + Format(a[1..], fields)) + Format(b, fields);
      Format(a, fields) + Format(b, fields);
    }
  }

  /** A '?' followed by a field's placeholder, after any prefix, formats to
      the formatted prefix, '?' and the field's value. */
  lemma FormatSlot(prefix: string, name: string, value: string, fields: Fields)
    requires WellNamed(fields) && (name, value) in fields && NeverInsideField('?', fields)
    ensures Format(prefix + "?" + Placeholder(name), fields) == Format(prefix, fields) + "?" + value
  {
    var p := Placeholder(name);
    assert prefix + "?" + p == prefix + ("?" + p);
    FormatAppend(prefix, "?" + p, fields);
    FormatTextThen("?", p, fields);
    FormatField(name, value, fields);
  }

  /** `sep.join(parts)` */
  function Join(parts: seq<string>, sep: char): string {
    if parts == [] then ""
    else if |parts| == 1 then parts[0]
    else parts[0] + [sep] + Join(parts[1..], sep)
  }

  /** `s.split(sep)` for a one-character separator: the maximal pieces between
      separators, empty pieces included. */
  function Split(s: string, sep: char): (parts: seq<string>)
    ensures |parts| >= 1
    ensures forall i :: 0 <= i < |parts| ==> sep !in parts[i]
    ensures Join(parts, sep) == s
  {
    if s == [] then [""]
    else
      var rest := Split(s[1..], sep);
      if s[0] == sep then [""] + rest
      else [[s[0]] + rest[0]] + rest[1..]
  }

  /** The other direction: splitting a join of separator-free parts gives the parts back. */
  lemma {:induction false} SplitJoin(parts: seq<string>, sep: char)
    requires |parts| >= 1
    requires forall i :: 0 <= i < |parts| ==> sep !in parts[i]
    ensures Split(Join(parts, sep), sep) == parts
    decreases |parts|, |parts[0]|
  {
    var p := parts[0];
    if p == [] {
      if |parts| > 1 {
        var s := Join(parts, sep);
        assert s == [sep] + Join(parts[1..], sep);
        assert s[1..] == Join(parts[1..], sep);
        SplitJoin(parts[1..], sep);
        assert Split(s, sep) == [""] + parts[1..];
        assert [""] + parts[1..] == parts;
      }
    } else {
      var smaller := [p[1..]] + parts[1..];
      assert smaller[1..] == parts[1..];
      assert forall i :: 0 <= i < |smaller| ==> sep !in smaller[i] by {
        forall i | 0 <= i < |smaller| ensures sep !in smaller[i] {
          if i == 0 {
            assert forall c :: c in p[1..] ==> c in p;
          } else {
            assert smaller[i] == parts[i];
          }
        }
      }
      SplitJoin(smaller, sep);
      var s := Join(parts, sep);
      assert p[0] != sep by { assert p[0] in parts[0]; }
      if |parts| == 1 {
        assert s == p && s[1..] == p[1..] == Join(smaller, sep);
      } else {
        assert s == [p[0]] + (p[1..] + [sep] + Join(parts[1..], sep));
        assert s[1..] == Join(smaller, sep);
      }
      assert Split(s, sep) == [[p[0]] + p[1..]] + parts[1..];
      assert [p[0]] + p[1..] == p;
      assert [p] + parts[1..] == parts;
    }
  }
}
