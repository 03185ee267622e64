/** Go's `strings.Split` and `strings.Join` for a one-character separator, as the
    services use them to turn a space-delimited OAuth2 scope string (RFC 6749
    section 3.3) into a list of scopes. */
module GoStrings {

  /** `strings.Join(parts, string(sep))`. */
  function Join(parts: seq<string>, sep: char): string
  {
    if |parts| == 0 then ""
    else if |parts| == 1 then parts[0]
    else parts[0] + [sep] + Join(parts[1..], sep)
  }

  /** `strings.Split(s, string(sep))`: the pieces between separators, in order.
      There is always at least one piece (`Split("", sep) == [""]`), no piece holds
      the separator, and joining the pieces gives back `s`. */
  function Split(s: string, sep: char): (parts: seq<string>)
    ensures |parts| >= 1
    ensures forall i :: 0 <= i < |parts| ==> sep !in parts[i]
    ensures Join(parts, sep) == s
    decreases |s|
  {
    if |s| == 0 then [""]
    else
      var rest := Split(s[1..], sep);
      if s[0] == sep then
        assert s == [sep] + s[1..];
        [""] + rest
      else
        var parts := [[s[0]] + rest[0]] + rest[1..];
        assert forall i :: 1 <= i < |parts| ==> parts[i] == rest[i];
        assert |rest| >= 2 ==> Join(rest, sep) == rest[0] + [sep] + Join(rest[1..], sep);
        assert s == [s[0]] + s[1..];
        parts
  }

  /** Splitting a word that holds no separator, followed by more text, glues the
      word onto the first piece of the text. */
  lemma {:induction false} SplitWord(w: string, t: string, sep: char)
    requires sep !in w
    ensures Split(w + t, sep) == [w + Split(t, sep)[0]] + Split(t, sep)[1..]
    decreases |w|
  {
    if |w| > 0 {
      var c, u := w[0], w[1..];
      var st := Split(t, sep);
      var r := Split(u + t, sep);
      assert (w + t)[0] == c && c != sep;
      assert (w + t)[1..] == u + t;
      SplitWord(u, t, sep);
      assert r[0] == u + st[0] && r[1..] == st[1..];
      assert Split(w + t, sep) == [[c] + r[0]] + r[1..];
      assert [c] + (u + st[0]) == w + st[0];
    } else {
      var r := Split(t, sep);
      assert w + t == t;
      assert w + r[0] == r[0];
      assert r == [r[0]] + r[1..];
    }
  }

  /** A separator in front of a text starts a new, empty first piece. */
  lemma SplitAfterSeparator(j: string, sep: char)
    ensures Split([sep] + j, sep) == [""] + Split(j, sep)
  {
    assert ([sep] + j)[0] == sep && ([sep] + j)[1..] == j;
  }

  /** Split undoes Join: pieces that hold no separator come back unchanged. */
  lemma {:induction false} SplitJoin(parts: seq<string>, sep: char)
    requires |parts| >= 1
    requires forall i :: 0 <= i < |parts| ==> sep !in parts[i]
    ensures Split(Join(parts, sep), sep) == parts
    decreases |parts|
  {
    var w := parts[0];
    if |parts| == 1 {
      SplitWord(w, "", sep);
      assert w + "" == w;
    } else {
      var rest := parts[1..];
      var tail := [sep] + Join(rest, sep);
      assert forall i :: 0 <= i < |rest| ==> rest[i] == parts[i + 1];
      SplitJoin(rest, sep);
      SplitAfterSeparator(Join(rest, sep), sep);
      SplitWord(w, tail, sep);
      assert Join(parts, sep) == w + tail;
      assert w + "" == w;
      assert parts == [w] + rest;
    }
  }

  /** The scope string of the token response example: "a b" gives ["a", "b"]. */
  lemma SplitTwoScopes()
    ensures Split("a b", ' ') == ["a", "b"]
  {
    assert Split("", ' ') == [""];
    assert "b"[1..] == "";
    assert Split("b", ' ') == ["b"];
    assert " b"[1..] == "b";
    assert Split(" b", ' ') == ["", "b"];
    assert "a b"[0] == 'a' && "a b"[1..] == " b";
    assert Split("a b", ' ') == [['a'] + Split(" b", ' ')[0]] + Split(" b", ' ')[1..];
    assert ['a'] + "" == "a";
  }
}
