/**
  Paths as the library compares them: a flag saying whether the path is rooted
  ("/var/log") and the sequence of its normal components, so "/var/cache/" and
  "/var/cache" are the same value.  Also the text splitting used to read
  colon-separated variables and path strings.
 */
module Paths {

  datatype Path = Path(absolute: bool, parts: seq<string>)

  /** An I/O failure of a host lookup (current directory, current executable). */
  datatype IoError = IoError

  /**
    `p.join(name)` where `name` is a relative name without '/': one more
    component, or none when the name is empty.
   */
  function Join(p: Path, name: string): Path {
    if name == [] then p else Path(p.absolute, p.parts + [name])
  }

  /** Joins the names one after another. */
  function JoinAll(p: Path, names: seq<string>): Path
    decreases |names|
  {
    if names == [] then p else JoinAll(Join(p, names[0]), names[1..])
  }

  lemma JoinAllShort(p: Path, a: string, b: string)
    ensures JoinAll(p, []) == p
    ensures JoinAll(p, [a]) == Join(p, a)
    ensures JoinAll(p, [a, b]) == Join(Join(p, a), b)
  {
    assert [a][1..] == [];
    assert [a, b][1..] == [b];
    assert JoinAll(p, [a, b]) == JoinAll(Join(p, a), [b]);
  }

  /** `base.join(q)`: a rooted `q` replaces `base`, a relative one is appended. */
  function JoinPath(base: Path, q: Path): Path {
    if q.absolute then q else Path(base.absolute, base.parts + q.parts)
  }

  /** `p` is `base` or lies below it. */
  predicate Within(p: Path, base: Path) {
    p.absolute == base.absolute && |base.parts| <= |p.parts| && p.parts[..|base.parts|] == base.parts
  }

  /** A join stays below the path it extends; every path lies within itself. */
  lemma JoinWithin(p: Path, name: string)
    ensures Within(Join(p, name), p)
    ensures Within(p, p)
  {
    assert (p.parts + [name])[..|p.parts|] == p.parts;
  }

  /** Lying below is transitive. */
  lemma WithinTrans(a: Path, b: Path, c: Path)
    requires Within(a, b) && Within(b, c)
    ensures Within(a, c)
  {
    assert a.parts[..|c.parts|] == a.parts[..|b.parts|][..|c.parts|];
  }

  /** `s.split(sep)`: the pieces between separators, in order; never empty. */
  function Split(s: string, sep: char): (pieces: seq<string>)
    ensures |pieces| >= 1
    decreases |s|
  {
    if s == [] then [[]]
    else
      var rest := Split(s[1..], sep);
      if s[0] == sep then [[]] + rest
      else [[s[0]] + rest[0]] + rest[1..]
  }

  /** The pieces glued back together with `sep` between neighbours. */
  function JoinWith(pieces: seq<string>, sep: char): string
    requires |pieces| >= 1
    decreases |pieces|
  {
    if |pieces| == 1 then pieces[0] else pieces[0] + [sep] + JoinWith(pieces[1..], sep)
  }

  /** Splitting loses nothing: gluing the pieces back gives the input. */
  lemma {:induction false} JoinSplit(s: string, sep: char)
    ensures JoinWith(Split(s, sep), sep) == s
    decreases |s|
  {
    if s != [] {
      JoinSplit(s[1..], sep);
      var rest := Split(s[1..], sep);
      if s[0] != sep && |rest| > 1 {
        assert ([[s[0]] + rest[0]] + rest[1..])[1..] == rest[1..];
      }
    }
  }

  /** No piece contains the separator. */
  lemma {:induction false} SplitPiecesFree(s: string, sep: char)
    ensures forall i :: 0 <= i < |Split(s, sep)| ==> sep !in Split(s, sep)[i]
    decreases |s|
  {
    if s != [] {
      SplitPiecesFree(s[1..], sep);
    }
  }

  lemma {:induction false} SplitAfterFreePrefix(x: string, z: string, sep: char)
    requires sep !in x
    ensures Split(x + z, sep) == [x + Split(z, sep)[0]] + Split(z, sep)[1..]
    decreases |x|
  {
    var tail := Split(z, sep);
    if x == [] {
      assert x + z == z;
      assert x + tail[0] == tail[0];
      assert [tail[0]] + tail[1..] == tail;
    } else {
      assert (x + z)[0] == x[0] && (x + z)[1..] == x[1..] + z;
      SplitAfterFreePrefix(x[1..], z, sep);
      var rest := Split(x[1..] + z, sep);
      assert rest[0] == x[1..] + tail[0] && rest[1..] == tail[1..];
      assert [x[0]] + (x[1..] + tail[0]) == x + tail[0];
    }
  }

  /** Gluing separator-free pieces and splitting again gives the pieces back. */
  lemma {:induction false} SplitJoin(pieces: seq<string>, sep: char)
    requires |pieces| >= 1
    requires forall i :: 0 <= i < |pieces| ==> sep !in pieces[i]
    ensures Split(JoinWith(pieces, sep), sep) == pieces
    decreases |pieces|
  {
    if |pieces| == 1 {
      SplitAfterFreePrefix(pieces[0], [], sep);
      assert pieces[0] + [] == pieces[0];
    } else {
      var tail := JoinWith(pieces[1..], sep);
      SplitJoin(pieces[1..], sep);
      assert Split([sep] + tail, sep) == [[]] + pieces[1..];
      assert pieces[0] + [sep] + tail == pieces[0] + ([sep] + tail);
      SplitAfterFreePrefix(pieces[0], [sep] + tail, sep);
      assert pieces[0] + [] == pieces[0];
      assert [pieces[0]] + pieces[1..] == pieces;
    }
  }

  /** The non-empty pieces, in order. */
  function NonEmpty(pieces: seq<string>): (r: seq<string>)
    ensures forall i :: 0 <= i < |r| ==> r[i] != []
  {
    if pieces == [] then []
    else if pieces[0] == [] then NonEmpty(pieces[1..])
    else [pieces[0]] + NonEmpty(pieces[1..])
  }

  /** `PathBuf::from(s)` on a unix host, as its components. */
  function ParsePath(s: string): Path {
    Path(|s| > 0 && s[0] == '/', NonEmpty(Split(s, '/')))
  }

  /** A path whose components are names: non-empty and free of '/'. */
  predicate Normal(p: Path) {
    forall i :: 0 <= i < |p.parts| ==> p.parts[i] != [] && '/' !in p.parts[i]
  }

  /** The text of a path: a leading '/' when rooted, then the components with '/' between. */
  function Display(p: Path): string {
    (if p.absolute then "/" else "") + (if p.parts == [] then "" else JoinWith(p.parts, '/'))
  }

  lemma {:induction false} NonEmptyKeeps(pieces: seq<string>)
    requires forall i :: 0 <= i < |pieces| ==> pieces[i] != []
    ensures NonEmpty(pieces) == pieces
  {
    if pieces != [] {
      NonEmptyKeeps(pieces[1..]);
      assert [pieces[0]] + pieces[1..] == pieces;
    }
  }

  /** Reading the text of a normal path gives the path back. */
  lemma ParseDisplay(p: Path)
    requires Normal(p)
    ensures ParsePath(Display(p)) == p
  {
    var body := if p.parts == [] then "" else JoinWith(p.parts, '/');
    var pieces := if p.parts == [] then [[]] else p.parts;
    assert Split(body, '/') == pieces by {
      if p.parts != [] {
        SplitJoin(p.parts, '/');
      }
    }
    NonEmptyKeeps(p.parts);
    if p.absolute {
      assert Display(p) == "/" + body;
      assert Split("/" + body, '/') == [[]] + pieces by {
        assert ("/" + body)[1..] == body;
      }
      assert NonEmpty([[]] + pieces) == NonEmpty(pieces) by {
        assert ([[]] + pieces)[1..] == pieces;
      }
    } else {
      assert Display(p) == body;
      if p.parts != [] {
        assert body[0] == p.parts[0][0] by {
          assert JoinWith(p.parts, '/') == p.parts[0] + (JoinWith(p.parts, '/')[|p.parts[0]|..]);
        }
        assert p.parts[0][0] in p.parts[0];
      }
    }
  }
}
