/**
 * The part of the browser's `URLSearchParams` that the embed builder uses:
 * an ordered list of name/value pairs, `set`, and `toString`. The
 * percent-encoding that `toString` applies is not modelled: `Serialize`
 * writes names and values as they are, so `Parse` reads them back only when
 * they contain no separator.
 */
module SearchParams {
  import opened Wrappers

  type Entry = (string, string)

  function Names(q: seq<Entry>): (r: seq<string>)
    ensures |r| == |q|
  {
    if q == [] then [] else [q[0].0] + Names(q[1..])
  }

  lemma {:induction false} NamesAt(q: seq<Entry>, i: nat)
    requires i < |q|
    ensures Names(q)[i] == q[i].0
  {
    if i > 0 {
      NamesAt(q[1..], i - 1);
    }
  }

  /** `get(name)`: the value of the first pair with that name. */
  function Lookup(q: seq<Entry>, name: string): (r: Option<string>)
    ensures r.None? <==> name !in Names(q)
  {
    if q == [] then None
    else if q[0].0 == name then Some(q[0].1)
    else Lookup(q[1..], name)
  }

  /** Looking a name up in two lists one after the other finds it in the first list if it is there. */
  lemma {:induction false} LookupAppend(a: seq<Entry>, b: seq<Entry>, name: string)
    ensures Lookup(a + b, name) == if name in Names(a) then Lookup(a, name) else Lookup(b, name)
  {
    if a == [] {
      assert a + b == b;
    } else {
      assert (a + b)[0] == a[0];
      assert Names(a) == [a[0].0] + Names(a[1..]);
      if a[0].0 != name {
        LookupAppend(a[1..], b, name);
        assert (a + b)[1..] == a[1..] + b;
        assert Lookup(a + b, name) == Lookup(a[1..] + b, name);
        assert name in Names(a) <==> name in Names(a[1..]);
      }
    }
  }

  /** `delete(name)`: every pair with that name removed, the others kept in order. */
  function Without(q: seq<Entry>, name: string): (r: seq<Entry>)
    ensures name !in Names(r)
    ensures forall n :: n != name ==> Lookup(r, n) == Lookup(q, n)
    ensures name !in Names(q) ==> r == q
  {
    if q == [] then []
    else if q[0].0 == name then Without(q[1..], name)
    else [q[0]] + Without(q[1..], name)
  }

  /**
   * `set(name, value)`: the first pair with that name takes the new value and
   * any later pairs with that name are removed; with no such pair, the new
   * pair is appended.
   */
  function Set(q: seq<Entry>, name: string, value: string): seq<Entry> {
    if q == [] then [(name, value)]
    else if q[0].0 == name then [(name, value)] + Without(q[1..], name)
    else [q[0]] + Set(q[1..], name, value)
  }

  /** `set` of a name already present: the first such pair takes the new value in place, later ones are removed. */
  lemma {:induction false} SetReplaces(q: seq<Entry>, name: string, value: string, i: nat)
    requires i < |q| && q[i].0 == name
    requires forall j :: 0 <= j < i ==> q[j].0 != name
    ensures Set(q, name, value) == q[..i] + [(name, value)] + Without(q[i + 1..], name)
  {
    var e: seq<Entry> := [(name, value)];
    if i == 0 {
      assert Set(q, name, value) == e + Without(q[1..], name);
      assert q[..0] + e == e;
    } else {
      var t := q[1..];
      assert q[0].0 != name;
      assert Set(q, name, value) == [q[0]] + Set(t, name, value);
      assert forall j :: 0 <= j < i - 1 ==> t[j].0 != name by {
        forall j | 0 <= j < i - 1 ensures t[j].0 != name {
          assert t[j] == q[j + 1];
        }
      }
      SetReplaces(t, name, value, i - 1);
      assert t[i..] == q[i + 1..];
      assert [q[0]] + t[..i - 1] == q[..i];
      var w := Without(q[i + 1..], name);
      assert Set(q, name, value) == [q[0]] + (t[..i - 1] + e + w);
      ConsAssociative(q[0], t[..i - 1], e, w);
    }
  }

  /** Regrouping a pair in front of three lists, stated on variables to keep the solver's work small. */
  lemma ConsAssociative(x: Entry, a: seq<Entry>, b: seq<Entry>, c: seq<Entry>)
    ensures [x] + (a + b + c) == ([x] + a) + b + c
  {
  }

  /** `toString()` without percent-encoding: `name=value` pairs joined by `&`. */
  function Serialize(q: seq<Entry>): string {
    if q == [] then ""
    else if |q| == 1 then q[0].0 + "=" + q[0].1
    else q[0].0 + "=" + q[0].1 + "&" + Serialize(q[1..])
  }

  /** Splits at every `c`, as `String.prototype.split`: always at least one piece. */
  function Split(s: string, c: char): (r: seq<string>)
    ensures |r| > 0
  {
    if s == [] then [""]
    else
      var rest := Split(s[1..], c);
      if s[0] == c then [""] + rest else [[s[0]] + rest[0]] + rest[1..]
  }

  /** A piece `name=value`, cut at its first `=`; a piece without `=` is a name with an empty value. */
  function NameValue(piece: string): Entry {
    if piece == [] then ("", "")
    else if piece[0] == '=' then ("", piece[1..])
    else
      var e := NameValue(piece[1..]);
      ([piece[0]] + e.0, e.1)
  }

  function ParsePieces(pieces: seq<string>): seq<Entry> {
    if pieces == [] then []
    else (if pieces[0] == "" then [] else [NameValue(pieces[0])]) + ParsePieces(pieces[1..])
  }

  /** The form-urlencoded parser, without percent-decoding: empty pieces are skipped. */
  function Parse(s: string): seq<Entry> {
    ParsePieces(Split(s, '&'))
  }

  /** A pair that survives serialisation: no `&` anywhere and no `=` in the name. */
  predicate Plain(e: Entry) {
    '&' !in e.0 && '=' !in e.0 && '&' !in e.1
  }

  lemma {:induction false} SplitPlain(s: string, c: char)
    requires c !in s
    ensures Split(s, c) == [s]
  {
    if s != [] {
      SplitPlain(s[1..], c);
      assert [s[0]] + s[1..] == s;
    }
  }

  lemma {:induction false} SplitAt(a: string, c: char, b: string)
    requires c !in a
    ensures Split(a + [c] + b, c) == [a] + Split(b, c)
  {
    if a == [] {
      assert a + [c] + b == [c] + b;
      assert ([c] + b)[1..] == b;
    } else {
      SplitAt(a[1..], c, b);
      assert (a + [c] + b)[1..] == a[1..] + [c] + b;
      assert [a[0]] + a[1..] == a;
    }
  }

  lemma {:induction false} NameValueAt(name: string, value: string)
    requires '=' !in name
    ensures NameValue(name + "=" + value) == (name, value)
  {
    if name == [] {
      assert name + "=" + value == ['='] + value;
      assert (['='] + value)[1..] == value;
    } else {
      NameValueAt(name[1..], value);
      assert (name + "=" + value)[1..] == name[1..] + "=" + value;
      assert [name[0]] + name[1..] == name;
    }
  }

  /** Reading back a serialised list of plain pairs gives the same list, in the same order. */
  lemma {:induction false} ParseSerialize(q: seq<Entry>)
    requires forall i :: 0 <= i < |q| ==> Plain(q[i])
    ensures Parse(Serialize(q)) == q
  {
    if q == [] {
    } else {
      var head := q[0].0 + "=" + q[0].1;
      assert '&' !in head by {
        forall i | 0 <= i < |head| ensures head[i] != '&' {
          if i < |q[0].0| { assert head[i] == q[0].0[i]; }
          else if i > |q[0].0| { assert head[i] == q[0].1[i - |q[0].0| - 1]; }
        }
      }
      assert head != "" by { assert head[|q[0].0|] == '='; }
      NameValueAt(q[0].0, q[0].1);
      if |q| == 1 {
        SplitPlain(head, '&');
        assert Serialize(q) == head;
        assert ParsePieces([head]) == [NameValue(head)] + ParsePieces([]);
      } else {
        ParseSerialize(q[1..]);
        var rest := Split(Serialize(q[1..]), '&');
        SplitAt(head, '&', Serialize(q[1..]));
        assert Serialize(q) == head + ['&'] + Serialize(q[1..]);
        assert ([head] + rest)[1..] == rest;
        assert ParsePieces([head] + rest) == [NameValue(head)] + ParsePieces(rest);
        assert [q[0]] + q[1..] == q;
      }
    }
  }

  /** Setting a name the list does not hold appends the pair. */
  lemma {:induction false} SetAppends(q: seq<Entry>, name: string, value: string)
    requires name !in Names(q)
    ensures Set(q, name, value) == q + [(name, value)]
  {
    if q != [] {
      SetAppends(q[1..], name, value);
      assert q == [q[0]] + q[1..];
    }
  }

  /** After `set`, the name has the new value and every other name keeps its value. */
  lemma {:induction false} SetLookup(q: seq<Entry>, name: string, value: string, other: string)
    ensures Lookup(Set(q, name, value), name) == Some(value)
    ensures other != name ==> Lookup(Set(q, name, value), other) == Lookup(q, other)
  {
    if q != [] && q[0].0 != name {
      SetLookup(q[1..], name, value, other);
    }
  }

  /** Serialising two non-empty lists one after the other joins them with one `&`. */
  lemma {:induction false} SerializeAppend(a: seq<Entry>, b: seq<Entry>)
    requires a != [] && b != []
    ensures Serialize(a + b) == Serialize(a) + "&" + Serialize(b)
  {
    if |a| == 1 {
      assert (a + b)[1..] == b;
    } else {
      SerializeAppend(a[1..], b);
      assert (a + b)[1..] == a[1..] + b;
    }
  }
}
