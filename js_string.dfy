/** The two JavaScript string methods the application relies on, as pure
    functions: `String.prototype.split` with a one-character separator and
    `String.prototype.includes`. */
module JsString {

  /** Joins fields with `sep` between consecutive ones (`fields.join(sep)`). */
  function Join(fields: seq<string>, sep: char): string
    requires |fields| >= 1
    decreases |fields|
  {
    if |fields| == 1 then fields[0] else fields[0] + [sep] + Join(fields[1..], sep)
  }

  /** `s.split(sep)`: the maximal separator-free pieces of `s`, in order. There
      is always at least one field, there is more than one exactly when `sep`
      occurs, and joining the fields back gives `s`. */
  function Split(s: string, sep: char): (fields: seq<string>)
    ensures |fields| >= 1
    ensures forall i :: 0 <= i < |fields| ==> sep !in fields[i]
    ensures |fields| == 1 <==> sep !in s
    ensures Join(fields, sep) == s
    decreases |s|
  {
    if s == [] then [""]
    else
      var rest := Split(s[1..], sep);
      if s[0] == sep then
        assert s == [sep] + s[1..];
        [""] + rest
      else
        var fields := [[s[0]] + rest[0]] + rest[1..];
        assert s == [s[0]] + s[1..];
        assert fields[1..] == rest[1..];
        fields
  }

  /** Splitting a string that starts with `c`: a separator opens an empty
      first field, any other character joins the first field of the rest. */
  lemma SplitCons(c: char, s: string, sep: char)
    ensures Split([c] + s, sep) ==
      if c == sep then [""] + Split(s, sep)
      else [[c] + Split(s, sep)[0]] + Split(s, sep)[1..]
  {
  }

  /** Moving the first character of the first field out of a join. */
  lemma JoinFirstChar(fields: seq<string>, sep: char)
    requires |fields| >= 1 && fields[0] != []
    ensures Join(fields, sep) == [fields[0][0]] + Join([fields[0][1..]] + fields[1..], sep)
  {
  }

  /** Splitting undoes joining, as long as no field contains the separator. */
  lemma {:induction false} SplitJoin(fields: seq<string>, sep: char)
    requires |fields| >= 1
    requires forall i :: 0 <= i < |fields| ==> sep !in fields[i]
    ensures Split(Join(fields, sep), sep) == fields
    decreases |fields|, |fields[0]|
  {
    var f := fields[0];
    if f == [] {
      if |fields| > 1 {
        var tail := Join(fields[1..], sep);
        assert Join(fields, sep) == [sep] + tail;
        SplitJoin(fields[1..], sep);
        SplitCons(sep, tail, sep);
        assert fields == [""] + fields[1..];
      }
    } else {
      var shorter := [f[1..]] + fields[1..];
      assert shorter[1..] == fields[1..];
      assert forall i :: 1 <= i < |shorter| ==> shorter[i] == fields[i];
      assert sep !in shorter[0] by { assert forall c :: c in f[1..] ==> c in f; }
      SplitJoin(shorter, sep);
      JoinFirstChar(fields, sep);
      assert f[0] != sep by { assert f[0] in f; }
      SplitCons(f[0], Join(shorter, sep), sep);
      assert [f[0]] + f[1..] == f;
      assert fields == [f] + fields[1..];
    }
  }

  /** `s.includes(t)`: `t` occurs in `s` as a contiguous piece. */
  predicate Includes(s: string, t: string)
    decreases |s|
  {
    |t| <= |s| && (s[..|t|] == t || Includes(s[1..], t))
  }

  /** `t` sits in `s` at position `i`. */
  predicate OccursAt(s: string, t: string, i: int) {
    0 <= i <= |s| - |t| && s[i..i + |t|] == t
  }

  /** `Includes` agrees with the positional definition of a substring. */
  lemma {:induction false} IncludesAt(s: string, t: string)
    ensures Includes(s, t) <==> exists i :: OccursAt(s, t, i)
    decreases |s|
  {
    if |t| > |s| {
      assert forall i :: !OccursAt(s, t, i);
    } else if s[..|t|] == t {
      assert OccursAt(s, t, 0);
    } else {
      IncludesAt(s[1..], t);
      if Includes(s[1..], t) {
        var i :| OccursAt(s[1..], t, i);
        assert s[i + 1..i + 1 + |t|] == t;
        assert OccursAt(s, t, i + 1);
      }
      if exists i :: OccursAt(s, t, i) {
        var i :| OccursAt(s, t, i);
        assert i > 0;
        assert s[1..][i - 1..i - 1 + |t|] == t;
        assert OccursAt(s[1..], t, i - 1);
      }
    }
  }
}
