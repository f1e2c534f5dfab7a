/**
  Name normalisation: the cleaners that turn a user-supplied qualifier,
  organization or application name into a filesystem-safe string.  Every
  cleaner is total.  The unix cleaner lower-cases ASCII, turns each of
  ' ', '_', '.', '\', '/', '@', '#' into '-' and keeps only ASCII letters,
  digits and '-'; the Windows cleaner keeps case and more punctuation; the
  qualifier cleaner lower-cases and keeps letters, digits, whitespace, '-'
  and '.'.
 */
module ProjectTriplet {

  predicate IsAsciiLower(c: char) { 'a' <= c <= 'z' }
  predicate IsAsciiUpper(c: char) { 'A' <= c <= 'Z' }
  predicate IsAsciiDigit(c: char) { '0' <= c <= '9' }
  predicate IsAsciiAlphanumeric(c: char) { IsAsciiLower(c) || IsAsciiUpper(c) || IsAsciiDigit(c) }

  /** `char::is_whitespace`: the Unicode White_Space property. */
  predicate IsWhitespace(c: char) {
    ('\t' <= c <= '\r') || c == ' ' || c == '\U{0085}' || c == '\U{00A0}' || c == '\U{1680}'
    || ('\U{2000}' <= c <= '\U{200A}') || c == '\U{2028}' || c == '\U{2029}' || c == '\U{202F}'
    || c == '\U{205F}' || c == '\U{3000}'
  }

  /** `char::to_ascii_lowercase`. */
  function AsciiLower(c: char): char {
    if IsAsciiUpper(c) then (c as int + 32) as char else c
  }

  /** `str::to_ascii_lowercase`. */
  function AsciiLowercase(s: string): string {
    if s == [] then [] else [AsciiLower(s[0])] + AsciiLowercase(s[1..])
  }

  /**
    `char::to_lowercase` as far as an ASCII filter can observe it: ASCII
    upper-case letters, and the two non-ASCII characters whose lower case
    contains an ASCII character (KELVIN SIGN, and CAPITAL I WITH DOT ABOVE,
    which becomes 'i' followed by a combining dot).  Every other character is
    kept as it is.
   */
  function Lowercase(c: char): string {
    if IsAsciiUpper(c) then [AsciiLower(c)]
    else if c == '\U{212A}' then "k"
    else if c == '\U{0130}' then ['i', '\U{0307}']
    else [c]
  }

  /** `str::to_lowercase`, character by character. */
  function LowercaseAll(s: string): string {
    if s == [] then [] else Lowercase(s[0]) + LowercaseAll(s[1..])
  }

  /** `s.replace(from, to)` for one-character patterns. */
  function ReplaceChar(s: string, from: char, to: char): string {
    if s == [] then [] else [if s[0] == from then to else s[0]] + ReplaceChar(s[1..], from, to)
  }

  /** `s.chars().filter(keep).collect()`. */
  function Filter(s: string, keep: char -> bool): string {
    if s == [] then [] else (if keep(s[0]) then [s[0]] else []) + Filter(s[1..], keep)
  }

  predicate KeptInUnixName(c: char) { IsAsciiAlphanumeric(c) || c == '-' }

  predicate KeptInWindowsName(c: char) {
    IsAsciiAlphanumeric(c) || IsWhitespace(c) || c == '-' || c == '.' || c == '_' || c == '(' || c == ')'
  }

  predicate KeptInQualifier(c: char) {
    IsAsciiAlphanumeric(c) || IsWhitespace(c) || c == '-' || c == '.'
  }

  /** The seven `.replace(_, "-")` steps of `unix_name_cleanup`, in the source's order. */
  function UnixDashes(s: string): string {
    ReplaceChar(ReplaceChar(ReplaceChar(ReplaceChar(ReplaceChar(ReplaceChar(ReplaceChar(
      s, ' ', '-'), '_', '-'), '.', '-'), '\\', '-'), '/', '-'), '@', '-'), '#', '-')
  }

  /** `unix_name_cleanup`: ASCII lower case, the replace chain, then the filter. */
  function UnixNameCleanup(name: string): string {
    Filter(UnixDashes(AsciiLowercase(name)), KeptInUnixName)
  }

  /** `windows_name_cleanup`. */
  function WindowsNameCleanup(name: string): string {
    var dashed := ReplaceChar(ReplaceChar(ReplaceChar(ReplaceChar(name, '\\', '-'), '/', '-'), '@', '-'), '#', '-');
    Filter(dashed, KeptInWindowsName)
  }

  /** `qualifier_cleanup`. */
  function QualifierCleanup(qualifier: string): string {
    Filter(LowercaseAll(qualifier), KeptInQualifier)
  }

  /** `name_cleanup` on a unix-family build. */
  function NameCleanup(name: string): string {
    UnixNameCleanup(name)
  }

  // ---------------------------------------------------------------------------
  // Character-by-character reference definitions

  predicate DashedInUnixName(c: char) {
    c == ' ' || c == '_' || c == '.' || c == '\\' || c == '/' || c == '@' || c == '#'
  }

  /** What the unix cleaner makes of one character: a dash, the lower-cased character, or nothing. */
  function UnixImage(c: char): string {
    var l := AsciiLower(c);
    if DashedInUnixName(l) then "-" else if KeptInUnixName(l) then [l] else []
  }

  function UnixImageAll(s: string): string {
    if s == [] then [] else UnixImage(s[0]) + UnixImageAll(s[1..])
  }

  predicate DashedInWindowsName(c: char) { c == '\\' || c == '/' || c == '@' || c == '#' }

  function WindowsImage(c: char): string {
    if DashedInWindowsName(c) then "-" else if KeptInWindowsName(c) then [c] else []
  }

  function WindowsImageAll(s: string): string {
    if s == [] then [] else WindowsImage(s[0]) + WindowsImageAll(s[1..])
  }

  lemma ReplaceHead(c: char, t: string, from: char, to: char)
    ensures ReplaceChar([c] + t, from, to) == [if c == from then to else c] + ReplaceChar(t, from, to)
  {
    assert ([c] + t)[0] == c && ([c] + t)[1..] == t;
  }

  lemma FilterHead(c: char, t: string, keep: char -> bool)
    ensures Filter([c] + t, keep) == (if keep(c) then [c] else []) + Filter(t, keep)
  {
    assert ([c] + t)[0] == c && ([c] + t)[1..] == t;
  }

  /** The replace chain works on the first character independently of the rest. */
  lemma UnixDashesHead(c: char, t: string)
    ensures UnixDashes([c] + t) == [if DashedInUnixName(c) then '-' else c] + UnixDashes(t)
  {
    var c1 := if c == ' ' then '-' else c;
    var c2 := if c1 == '_' then '-' else c1;
    var c3 := if c2 == '.' then '-' else c2;
    var c4 := if c3 == '\\' then '-' else c3;
    var c5 := if c4 == '/' then '-' else c4;
    var c6 := if c5 == '@' then '-' else c5;
    var t1 := ReplaceChar(t, ' ', '-');
    var t2 := ReplaceChar(t1, '_', '-');
    var t3 := ReplaceChar(t2, '.', '-');
    var t4 := ReplaceChar(t3, '\\', '-');
    var t5 := ReplaceChar(t4, '/', '-');
    var t6 := ReplaceChar(t5, '@', '-');
    ReplaceHead(c, t, ' ', '-');
    ReplaceHead(c1, t1, '_', '-');
    ReplaceHead(c2, t2, '.', '-');
    ReplaceHead(c3, t3, '\\', '-');
    ReplaceHead(c4, t4, '/', '-');
    ReplaceHead(c5, t5, '@', '-');
    ReplaceHead(c6, t6, '#', '-');
  }

  /** The unix cleaner is the character-by-character image of its input. */
  lemma {:induction false} UnixCleanupCharwise(name: string)
    ensures UnixNameCleanup(name) == UnixImageAll(name)
    decreases |name|
  {
    if name != [] {
      UnixCleanupCharwise(name[1..]);
      var l := AsciiLower(name[0]);
      var t := AsciiLowercase(name[1..]);
      assert AsciiLowercase(name) == [l] + t;
      UnixDashesHead(l, t);
      FilterHead(if DashedInUnixName(l) then '-' else l, UnixDashes(t), KeptInUnixName);
    }
  }

  // ---------------------------------------------------------------------------
  // Properties of the unix cleaner

  /** The characters a unix name is made of. */
  predicate InUnixAlphabet(c: char) { IsAsciiLower(c) || IsAsciiDigit(c) || c == '-' }

  lemma {:induction false} UnixImageAllAppend(a: string, b: string)
    ensures UnixImageAll(a + b) == UnixImageAll(a) + UnixImageAll(b)
    decreases |a|
  {
    if a == [] {
      assert a + b == b;
    } else {
      assert (a + b)[0] == a[0] && (a + b)[1..] == a[1..] + b;
      UnixImageAllAppend(a[1..], b);
    }
  }

  lemma {:induction false} UnixImageAllShape(s: string)
    ensures |UnixImageAll(s)| <= |s|
    ensures forall i :: 0 <= i < |UnixImageAll(s)| ==> InUnixAlphabet(UnixImageAll(s)[i])
    decreases |s|
  {
    if s != [] {
      UnixImageAllShape(s[1..]);
    }
  }

  lemma {:induction false} UnixImageFixesAlphabet(s: string)
    requires forall i :: 0 <= i < |s| ==> InUnixAlphabet(s[i])
    ensures UnixImageAll(s) == s
    decreases |s|
  {
    if s != [] {
      UnixImageFixesAlphabet(s[1..]);
      assert [s[0]] + s[1..] == s;
    }
  }

  /**
    The unix name holds only ASCII lower-case letters, digits and '-', and is
    never longer than the raw name.
   */
  lemma UnixNameCleanupShape(name: string)
    ensures |UnixNameCleanup(name)| <= |name|
    ensures forall i :: 0 <= i < |UnixNameCleanup(name)| ==> InUnixAlphabet(UnixNameCleanup(name)[i])
  {
    UnixCleanupCharwise(name);
    UnixImageAllShape(name);
  }

  /** Cleaning a cleaned name changes nothing. */
  lemma UnixNameCleanupIdempotent(name: string)
    ensures UnixNameCleanup(UnixNameCleanup(name)) == UnixNameCleanup(name)
  {
    var once := UnixNameCleanup(name);
    UnixNameCleanupShape(name);
    UnixCleanupCharwise(once);
    UnixImageFixesAlphabet(once);
  }

  /** A name already made of the unix alphabet is its own unix name. */
  lemma UnixNameCleanupFixes(name: string)
    requires forall i :: 0 <= i < |name| ==> InUnixAlphabet(name[i])
    ensures UnixNameCleanup(name) == name
  {
    UnixCleanupCharwise(name);
    UnixImageFixesAlphabet(name);
  }

  // ---------------------------------------------------------------------------
  // Properties of the Windows cleaner

  lemma WindowsDashesHead(c: char, t: string)
    ensures ReplaceChar(ReplaceChar(ReplaceChar(ReplaceChar([c] + t, '\\', '-'), '/', '-'), '@', '-'), '#', '-')
         == [if DashedInWindowsName(c) then '-' else c]
            + ReplaceChar(ReplaceChar(ReplaceChar(ReplaceChar(t, '\\', '-'), '/', '-'), '@', '-'), '#', '-')
  {
    var c1 := if c == '\\' then '-' else c;
    var c2 := if c1 == '/' then '-' else c1;
    var c3 := if c2 == '@' then '-' else c2;
    var t1 := ReplaceChar(t, '\\', '-');
    var t2 := ReplaceChar(t1, '/', '-');
    var t3 := ReplaceChar(t2, '@', '-');
    ReplaceHead(c, t, '\\', '-');
    ReplaceHead(c1, t1, '/', '-');
    ReplaceHead(c2, t2, '@', '-');
    ReplaceHead(c3, t3, '#', '-');
  }

  /** The Windows cleaner is the character-by-character image of its input. */
  lemma {:induction false} WindowsCleanupCharwise(name: string)
    ensures WindowsNameCleanup(name) == WindowsImageAll(name)
    decreases |name|
  {
    if name != [] {
      WindowsCleanupCharwise(name[1..]);
      var c := name[0];
      var t := name[1..];
      assert name == [c] + t;
      WindowsDashesHead(c, t);
      FilterHead(if DashedInWindowsName(c) then '-' else c,
                 ReplaceChar(ReplaceChar(ReplaceChar(ReplaceChar(t, '\\', '-'), '/', '-'), '@', '-'), '#', '-'),
                 KeptInWindowsName);
    }
  }

  lemma {:induction false} WindowsImageAllShape(s: string)
    ensures |WindowsImageAll(s)| <= |s|
    ensures forall i :: 0 <= i < |WindowsImageAll(s)| ==> KeptInWindowsName(WindowsImageAll(s)[i])
    decreases |s|
  {
    if s != [] {
      WindowsImageAllShape(s[1..]);
    }
  }

  lemma {:induction false} WindowsImageFixesKept(s: string)
    requires forall i :: 0 <= i < |s| ==> KeptInWindowsName(s[i])
    ensures WindowsImageAll(s) == s
    decreases |s|
  {
    if s != [] {
      WindowsImageFixesKept(s[1..]);
      assert [s[0]] + s[1..] == s;
    }
  }

  /**
    The Windows name holds only ASCII letters and digits, whitespace, '-', '.',
    '_', '(' and ')'; in particular never '/', '\', '@' or '#'.
   */
  lemma WindowsNameCleanupShape(name: string)
    ensures |WindowsNameCleanup(name)| <= |name|
    ensures forall i :: 0 <= i < |WindowsNameCleanup(name)| ==> KeptInWindowsName(WindowsNameCleanup(name)[i])
    ensures forall i :: 0 <= i < |WindowsNameCleanup(name)| ==> !DashedInWindowsName(WindowsNameCleanup(name)[i])
  {
    WindowsCleanupCharwise(name);
    WindowsImageAllShape(name);
  }

  /** Case, whitespace and the kept punctuation survive: a name made only of kept characters is unchanged. */
  lemma WindowsNameCleanupPreserves(name: string)
    requires forall i :: 0 <= i < |name| ==> KeptInWindowsName(name[i])
    ensures WindowsNameCleanup(name) == name
  {
    WindowsCleanupCharwise(name);
    WindowsImageFixesKept(name);
  }

  // ---------------------------------------------------------------------------
  // Properties of the qualifier cleaner

  lemma {:induction false} FilterShape(s: string, keep: char -> bool)
    ensures |Filter(s, keep)| <= |s|
    ensures forall i :: 0 <= i < |Filter(s, keep)| ==> keep(Filter(s, keep)[i])
    ensures forall i :: 0 <= i < |Filter(s, keep)| ==> Filter(s, keep)[i] in s
    decreases |s|
  {
    if s != [] {
      FilterShape(s[1..], keep);
    }
  }

  lemma {:induction false} LowercaseAllHasNoUpper(s: string)
    ensures forall i :: 0 <= i < |LowercaseAll(s)| ==> !IsAsciiUpper(LowercaseAll(s)[i])
    decreases |s|
  {
    if s != [] {
      LowercaseAllHasNoUpper(s[1..]);
    }
  }

  /**
    The qualifier keeps only ASCII letters and digits, whitespace, '-' and '.',
    and no ASCII upper-case letter survives.
   */
  lemma QualifierCleanupShape(qualifier: string)
    ensures forall i :: 0 <= i < |QualifierCleanup(qualifier)| ==>
      KeptInQualifier(QualifierCleanup(qualifier)[i]) && !IsAsciiUpper(QualifierCleanup(qualifier)[i])
  {
    LowercaseAllHasNoUpper(qualifier);
    FilterShape(LowercaseAll(qualifier), KeptInQualifier);
  }

  lemma {:induction false} LowercaseAllFixes(s: string)
    requires forall i :: 0 <= i < |s| ==> KeptInQualifier(s[i]) && !IsAsciiUpper(s[i])
    ensures LowercaseAll(s) == s
    decreases |s|
  {
    if s != [] {
      LowercaseAllFixes(s[1..]);
      assert [s[0]] + s[1..] == s;
    }
  }

  lemma {:induction false} FilterKeepsAll(s: string, keep: char -> bool)
    requires forall i :: 0 <= i < |s| ==> keep(s[i])
    ensures Filter(s, keep) == s
    decreases |s|
  {
    if s != [] {
      FilterKeepsAll(s[1..], keep);
      assert [s[0]] + s[1..] == s;
    }
  }

  /** Cleaning a cleaned qualifier changes nothing. */
  lemma QualifierCleanupIdempotent(qualifier: string)
    ensures QualifierCleanup(QualifierCleanup(qualifier)) == QualifierCleanup(qualifier)
  {
    var once := QualifierCleanup(qualifier);
    QualifierCleanupShape(qualifier);
    LowercaseAllFixes(once);
    FilterKeepsAll(once, KeptInQualifier);
  }

  /** Cleaning a cleaned Windows name changes nothing. */
  lemma WindowsNameCleanupIdempotent(name: string)
    ensures WindowsNameCleanup(WindowsNameCleanup(name)) == WindowsNameCleanup(name)
  {
    WindowsNameCleanupShape(name);
    WindowsNameCleanupPreserves(WindowsNameCleanup(name));
  }

  // ---------------------------------------------------------------------------
  // The examples of the test suite

  lemma {:induction false} WindowsImageAllAppend(a: string, b: string)
    ensures WindowsImageAll(a + b) == WindowsImageAll(a) + WindowsImageAll(b)
    decreases |a|
  {
    if a == [] {
      assert a + b == b;
    } else {
      assert (a + b)[0] == a[0] && (a + b)[1..] == a[1..] + b;
      WindowsImageAllAppend(a[1..], b);
    }
  }

  lemma {:induction false} FilterAppend(a: string, b: string, keep: char -> bool)
    ensures Filter(a + b, keep) == Filter(a, keep) + Filter(b, keep)
    decreases |a|
  {
    if a == [] {
      assert a + b == b;
    } else {
      assert (a + b)[0] == a[0] && (a + b)[1..] == a[1..] + b;
      FilterAppend(a[1..], b, keep);
    }
  }

  lemma {:induction false} LowercaseAllAppend(a: string, b: string)
    ensures LowercaseAll(a + b) == LowercaseAll(a) + LowercaseAll(b)
    decreases |a|
  {
    if a == [] {
      assert a + b == b;
    } else {
      assert (a + b)[0] == a[0] && (a + b)[1..] == a[1..] + b;
      LowercaseAllAppend(a[1..], b);
    }
  }

  // ---------------------------------------------------------------------------
  // The test suite's names.  Each literal is cut into short pieces whose images
  // are evaluated on their own, then glued back with the append lemmas.

  lemma UnixImageAll6(a: string, b: string, c: string, d: string, e: string, f: string)
    ensures UnixImageAll(a + (b + (c + (d + (e + f)))))
         == UnixImageAll(a) + (UnixImageAll(b) + (UnixImageAll(c) + (UnixImageAll(d) + (UnixImageAll(e) + UnixImageAll(f)))))
  {
    UnixImageAllAppend(e, f);
    UnixImageAllAppend(d, e + f);
    UnixImageAllAppend(c, d + (e + f));
    UnixImageAllAppend(b, c + (d + (e + f)));
    UnixImageAllAppend(a, b + (c + (d + (e + f))));
  }

  lemma WindowsImageAll6(a: string, b: string, c: string, d: string, e: string, f: string)
    ensures WindowsImageAll(a + (b + (c + (d + (e + f)))))
         == WindowsImageAll(a) + (WindowsImageAll(b) + (WindowsImageAll(c) + (WindowsImageAll(d) + (WindowsImageAll(e) + WindowsImageAll(f)))))
  {
    WindowsImageAllAppend(e, f);
    WindowsImageAllAppend(d, e + f);
    WindowsImageAllAppend(c, d + (e + f));
    WindowsImageAllAppend(b, c + (d + (e + f)));
    WindowsImageAllAppend(a, b + (c + (d + (e + f))));
  }

  lemma QualifierCleanup6(a: string, b: string, c: string, d: string, e: string, f: string)
    ensures QualifierCleanup(a + (b + (c + (d + (e + f)))))
         == QualifierCleanup(a) + (QualifierCleanup(b) + (QualifierCleanup(c) + (QualifierCleanup(d) + (QualifierCleanup(e) + QualifierCleanup(f)))))
  {
    QualifierCleanupAppend(e, f);
    QualifierCleanupAppend(d, e + f);
    QualifierCleanupAppend(c, d + (e + f));
    QualifierCleanupAppend(b, c + (d + (e + f)));
    QualifierCleanupAppend(a, b + (c + (d + (e + f))));
  }

  lemma QualifierCleanupAppend(a: string, b: string)
    ensures QualifierCleanup(a + b) == QualifierCleanup(a) + QualifierCleanup(b)
  {
    LowercaseAllAppend(a, b);
    FilterAppend(LowercaseAll(a), LowercaseAll(b), KeptInQualifier);
  }

  lemma UnixNameOfTestApplicationPieces1()
    ensures UnixImageAll("funn") == "funn" && UnixImageAll("y-bu") == "y-bu"
  {
  }

  lemma UnixNameOfTestApplicationPieces2()
    ensures UnixImageAll("nny ") == "nny-" && UnixImageAll("v.21") == "v-21"
  {
  }

  lemma UnixNameOfTestApplicationPieces3()
    ensures UnixImageAll("37_0") == "37-0"
  {
  }

  lemma UnixNameOfTestApplicationGlue()
    ensures "funn" + ("y-bu" + ("nny-" + ("v-21" + ("37-0" + "")))) == "funny-bunny-v-2137-0"
  {
  }

  /** Space, '.' and '_' each become one dash. */
  lemma UnixNameOfTestApplication(name: string)
    requires name == "funny-bunny v.2137_0"
    ensures UnixNameCleanup(name) == "funny-bunny-v-2137-0"
  {
    UnixCleanupCharwise(name);
    assert name == "funn" + ("y-bu" + ("nny " + ("v.21" + ("37_0" + ""))));
    UnixNameOfTestApplicationPieces1();
    UnixNameOfTestApplicationPieces2();
    UnixNameOfTestApplicationPieces3();
    UnixImageAll6("funn", "y-bu", "nny ", "v.21", "37_0", "");
    UnixNameOfTestApplicationGlue();
  }

  lemma UnixNameDropsNonAsciiPieces1()
    ensures UnixImageAll("\U{017C}o\U{0142}\U{0105}") == "o" && UnixImageAll("d\U{017A} p") == "d-p"
  {
  }

  lemma UnixNameDropsNonAsciiPieces2()
    ensures UnixImageAll("roje") == "roje" && UnixImageAll("ct") == "ct"
  {
  }

  lemma UnixNameDropsNonAsciiGlue()
    ensures "o" + ("d-p" + ("roje" + ("ct" + ("" + "")))) == "od-project"
  {
  }

  /** Non-ASCII letters are dropped, not transliterated. */
  lemma UnixNameDropsNonAscii(name: string)
    requires name == "\U{017C}o\U{0142}\U{0105}d\U{017A} project"
    ensures UnixNameCleanup(name) == "od-project"
  {
    UnixCleanupCharwise(name);
    assert name == "\U{017C}o\U{0142}\U{0105}" + ("d\U{017A} p" + ("roje" + ("ct" + ("" + ""))));
    UnixNameDropsNonAsciiPieces1();
    UnixNameDropsNonAsciiPieces2();
    UnixImageAll6("\U{017C}o\U{0142}\U{0105}", "d\U{017A} p", "roje", "ct", "", "");
    UnixNameDropsNonAsciiGlue();
  }

  lemma UnixNameOfUnderscoredNamePieces1()
    ensures UnixImageAll("123-") == "123-" && UnixImageAll("my_p") == "my-p"
  {
  }

  lemma UnixNameOfUnderscoredNamePieces2()
    ensures UnixImageAll("roj") == "roj"
  {
  }

  lemma UnixNameOfUnderscoredNameGlue()
    ensures "123-" + ("my-p" + ("roj" + ("" + ("" + "")))) == "123-my-proj"
  {
  }

  /** Digits and dashes stay; '_' becomes a dash. */
  lemma UnixNameOfUnderscoredName(name: string)
    requires name == "123-my_proj"
    ensures UnixNameCleanup(name) == "123-my-proj"
  {
    UnixCleanupCharwise(name);
    assert name == "123-" + ("my_p" + ("roj" + ("" + ("" + ""))));
    UnixNameOfUnderscoredNamePieces1();
    UnixNameOfUnderscoredNamePieces2();
    UnixImageAll6("123-", "my_p", "roj", "", "", "");
    UnixNameOfUnderscoredNameGlue();
  }

  lemma UnixNameOfExampleApplicationPieces1()
    ensures UnixImageAll("My M") == "my-m" && UnixImageAll("agic") == "agic"
  {
  }

  lemma UnixNameOfExampleApplicationPieces2()
    ensures UnixImageAll(" Sup") == "-sup" && UnixImageAll("er/A") == "er-a"
  {
  }

  lemma UnixNameOfExampleApplicationPieces3()
    ensures UnixImageAll("pp") == "pp"
  {
  }

  lemma UnixNameOfExampleApplicationGlue()
    ensures "my-m" + ("agic" + ("-sup" + ("er-a" + ("pp" + "")))) == "my-magic-super-app"
  {
  }

  /** Upper case is lowered and '/' becomes a dash. */
  lemma UnixNameOfExampleApplication(name: string)
    requires name == "My Magic Super/App"
    ensures UnixNameCleanup(name) == "my-magic-super-app"
  {
    UnixCleanupCharwise(name);
    assert name == "My M" + ("agic" + (" Sup" + ("er/A" + ("pp" + ""))));
    UnixNameOfExampleApplicationPieces1();
    UnixNameOfExampleApplicationPieces2();
    UnixNameOfExampleApplicationPieces3();
    UnixImageAll6("My M", "agic", " Sup", "er/A", "pp", "");
    UnixNameOfExampleApplicationGlue();
  }

  lemma UnixNameOfTestOrganizationPieces1()
    ensures UnixImageAll("my-o") == "my-o" && UnixImageAll("rg C") == "rg-c"
  {
  }

  lemma UnixNameOfTestOrganizationPieces2()
    ensures UnixImageAll("orp") == "orp"
  {
  }

  lemma UnixNameOfTestOrganizationGlue()
    ensures "my-o" + ("rg-c" + ("orp" + ("" + ("" + "")))) == "my-org-corp"
  {
  }

  /** The test organization's unix name. */
  lemma UnixNameOfTestOrganization(name: string)
    requires name == "my-org Corp"
    ensures UnixNameCleanup(name) == "my-org-corp"
  {
    UnixCleanupCharwise(name);
    assert name == "my-o" + ("rg C" + ("orp" + ("" + ("" + ""))));
    UnixNameOfTestOrganizationPieces1();
    UnixNameOfTestOrganizationPieces2();
    UnixImageAll6("my-o", "rg C", "orp", "", "", "");
    UnixNameOfTestOrganizationGlue();
  }

  lemma WindowsNameDropsNonAsciiPieces1()
    ensures WindowsImageAll("\U{017C}o\U{0142}\U{0105}") == "o"
  {
  }

  lemma WindowsNameDropsNonAsciiPieces2()
    ensures WindowsImageAll("d\U{017A} p") == "d p"
  {
  }

  lemma WindowsNameDropsNonAsciiPieces3()
    ensures WindowsImageAll("roje") == "roje"
  {
  }

  lemma WindowsNameDropsNonAsciiPieces4()
    ensures WindowsImageAll("ct") == "ct"
  {
  }

  lemma WindowsNameDropsNonAsciiGlue()
    ensures "o" + ("d p" + ("roje" + ("ct" + ("" + "")))) == "od project"
  {
  }

  /** The Windows cleaner drops non-ASCII letters but keeps the space. */
  lemma WindowsNameDropsNonAscii(name: string)
    requires name == "\U{017C}o\U{0142}\U{0105}d\U{017A} project"
    ensures WindowsNameCleanup(name) == "od project"
  {
    WindowsCleanupCharwise(name);
    assert name == "\U{017C}o\U{0142}\U{0105}" + ("d\U{017A} p" + ("roje" + ("ct" + ("" + ""))));
    WindowsNameDropsNonAsciiPieces1();
    WindowsNameDropsNonAsciiPieces2();
    WindowsNameDropsNonAsciiPieces3();
    WindowsNameDropsNonAsciiPieces4();
    WindowsImageAll6("\U{017C}o\U{0142}\U{0105}", "d\U{017A} p", "roje", "ct", "", "");
    WindowsNameDropsNonAsciiGlue();
  }

  lemma QualifierExamplePieces1()
    ensures QualifierCleanup("123a") == "123a"
  {
  }

  lemma QualifierExamplePieces2()
    ensures QualifierCleanup("sd_&") == "sd"
  {
  }

  lemma QualifierExamplePieces3()
    ensures QualifierCleanup("&-.s") == "-.s"
  {
  }

  lemma QualifierExamplePieces4()
    ensures QualifierCleanup("upoe") == "upoe"
  {
  }

  lemma QualifierExamplePieces5()
    ensures QualifierCleanup("r.co") == "r.co"
  {
  }

  lemma QualifierExamplePieces6()
    ensures QualifierCleanup("m\U{0105}") == "m"
  {
  }

  lemma QualifierExampleGlue()
    ensures "123a" + ("sd" + ("-.s" + ("upoe" + ("r.co" + "m")))) == "123asd-.supoer.com"
  {
  }

  /** The qualifier the test suite expects: '_', '&' and the non-ASCII letter go, '-' and '.' stay. */
  lemma QualifierExample(name: string)
    requires name == "123asd_&&-.supoer.com\U{0105}"
    ensures QualifierCleanup(name) == "123asd-.supoer.com"
  {
    assert name == "123a" + ("sd_&" + ("&-.s" + ("upoe" + ("r.co" + "m\U{0105}"))));
    QualifierExamplePieces1();
    QualifierExamplePieces2();
    QualifierExamplePieces3();
    QualifierExamplePieces4();
    QualifierExamplePieces5();
    QualifierExamplePieces6();
    QualifierCleanup6("123a", "sd_&", "&-.s", "upoe", "r.co", "m\U{0105}");
    QualifierExampleGlue();
  }

  /** The Windows cleaner keeps the test names that need no cleaning as they are. */
  lemma WindowsNamesKeptAsIs(a: string, c: string, e: string)
    requires a == "funny-bunny v.2137_0" && c == "123-my_proj" && e == "my-org Corp"
    ensures WindowsNameCleanup(a) == a && WindowsNameCleanup(c) == c && WindowsNameCleanup(e) == e
  {
    WindowsNameCleanupPreserves(a);
    WindowsNameCleanupPreserves(c);
    WindowsNameCleanupPreserves(e);
  }
}
