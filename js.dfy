/** The few pieces of JavaScript semantics the request handlers rely on:
    `undefined`, truthiness of a string field, JSON scalars, array indexing
    that yields `undefined` out of range, and `String.prototype.split` with a
    one-character separator. */
module Js {

  /** A request-body field or header: `None` is `undefined`. */
  datatype Option<+T> = None | Some(value: T)

  /** The JSON scalars a request field can hold (arrays and objects are not
      modelled). JSON numbers are doubles in JavaScript; here they are
      integers. */
  datatype JsonValue = Null | Bool(b: bool) | Number(n: int) | Str(s: string)

  /** `!!v` for a string-valued field: `undefined` and `""` are falsy. */
  predicate Truthy(v: Option<string>)
  {
    v.Some? && v.value != ""
  }

  /** `v || fallback` for a string-valued field. */
  function OrElse(v: Option<string>, fallback: string): (s: string)
  {
    if Truthy(v) then v.value else fallback
  }

  /** `a[i]` on a JavaScript array: `undefined` past the end. */
  function At<T>(a: seq<T>, i: nat): (r: Option<T>)
  {
    if i < |a| then Some(a[i]) else None
  }

  /** `s.split(sep)` for a one-character separator: the pieces between
      consecutive separators, including empty ones, and at least one piece. */
  function Split(s: string, sep: char): (parts: seq<string>)
    ensures |parts| >= 1
    ensures forall k :: 0 <= k < |parts| ==> sep !in parts[k]
  {
    if |s| == 0 then [""]
    else
      var rest := Split(s[1..], sep);
      if s[0] == sep then [""] + rest
      else [[s[0]] + rest[0]] + rest[1..]
  }

  /** `parts.join(sep)`, the inverse of `Split`. */
  function Join(parts: seq<string>, sep: char): (s: string)
    requires |parts| >= 1
  {
    if |parts| == 1 then parts[0] else parts[0] + [sep] + Join(parts[1..], sep)
  }

  /** Joining the pieces of a split gives back the original string. */
  lemma {:induction false} JoinSplit(s: string, sep: char)
    ensures Join(Split(s, sep), sep) == s
  {
    if |s| > 0 {
      JoinSplit(s[1..], sep);
      var rest := Split(s[1..], sep);
      if s[0] != sep {
        if |rest| > 1 {
          assert Join(rest, sep) == rest[0] + [sep] + Join(rest[1..], sep);
        }
        assert s == [s[0]] + s[1..];
      } else {
        assert s == [sep] + s[1..];
      }
    }
  }

  /** Text without a separator glues onto the first piece of what follows it. */
  lemma {:induction false} SplitPrefix(a: string, t: string, sep: char)
    requires sep !in a
    ensures Split(a + t, sep) == [a + Split(t, sep)[0]] + Split(t, sep)[1..]
  {
    if |a| > 0 {
      assert (a + t)[0] == a[0] != sep;
      assert (a + t)[1..] == a[1..] + t;
      SplitPrefix(a[1..], t, sep);
      var rest := Split(a[1..] + t, sep);
      assert Split(a + t, sep) == [[a[0]] + rest[0]] + rest[1..];
      assert [a[0]] + (a[1..] + Split(t, sep)[0]) == a + Split(t, sep)[0];
    } else {
      var parts := Split(t, sep);
      assert a + t == t && a + parts[0] == parts[0];
      assert parts == [parts[0]] + parts[1..];
    }
  }

  /** Pieces without separators come back unchanged from a split of their
      join. */
  lemma {:induction false} SplitJoin(parts: seq<string>, sep: char)
    requires |parts| >= 1
    requires forall k :: 0 <= k < |parts| ==> sep !in parts[k]
    ensures Split(Join(parts, sep), sep) == parts
  {
    if |parts| == 1 {
      SplitPrefix(parts[0], "", sep);
      assert parts[0] + "" == parts[0];
    } else {
      var t := Join(parts[1..], sep);
      SplitJoin(parts[1..], sep);
      assert parts[0] + [sep] + t == parts[0] + ([sep] + t);
      SplitPrefix(parts[0], [sep] + t, sep);
      assert ([sep] + t)[1..] == t;
      assert Split([sep] + t, sep) == [""] + Split(t, sep);
      assert parts[0] + "" == parts[0];
      assert parts == [parts[0]] + parts[1..];
    }
  }

  /** A string with no separator splits into itself alone. */
  lemma SplitWithoutSeparator(s: string, sep: char)
    requires sep !in s
    ensures Split(s, sep) == [s]
  {
    SplitJoin([s], sep);
  }

  /** The second piece of `prefix + sep + t + rest` is `t` whenever neither
      `prefix` nor `t` holds a separator and `rest` is empty or starts a new
      piece: this is what `header.split(' ')[1]` picks out. */
  lemma SecondPiece(prefix: string, t: string, rest: string, sep: char)
    requires sep !in prefix && sep !in t
    requires rest == "" || rest[0] == sep
    ensures At(Split(prefix + [sep] + t + rest, sep), 1) == Some(t)
  {
    var tail := t + rest;
    assert prefix + [sep] + t + rest == prefix + ([sep] + tail);
    SplitPrefix(prefix, [sep] + tail, sep);
    assert ([sep] + tail)[1..] == tail;
    SplitPrefix(t, rest, sep);
    if rest == "" {
      assert Split(rest, sep) == [""];
      assert t + "" == t;
    } else {
      assert Split(rest, sep)[0] == "";
      assert t + "" == t;
    }
  }

  /** Every string holding a separator is `prefix + sep + t + rest`, with
      `prefix` and `t` free of separators and `rest` empty or starting a new
      piece; `t` is then its second piece (see `SecondPiece`). */
  lemma SplitAtFirstSeparator(h: string, sep: char) returns (prefix: string, t: string, rest: string)
    requires sep in h
    ensures sep !in prefix && sep !in t
    ensures rest == "" || rest[0] == sep
    ensures h == prefix + [sep] + t + rest
  {
    var parts := Split(h, sep);
    JoinSplit(h, sep);
    prefix, t := parts[0], parts[1];
    assert Join(parts, sep) == prefix + [sep] + Join(parts[1..], sep);
    if |parts| == 2 {
      rest := "";
      assert Join(parts[1..], sep) == t;
    } else {
      rest := [sep] + Join(parts[2..], sep);
      assert parts[1..][1..] == parts[2..];
      assert Join(parts[1..], sep) == t + [sep] + Join(parts[2..], sep);
    }
  }
}
