/** The shared directories of pkg/vfkit: the greedy mount list and the `fstab`
    text that carries it through a shell and `echo -e` into the guest. */
module Mounts {
  import opened Prelude
  import opened Text

  datatype Fs = Fs(tag: string, shareDir: string)

  const BASE := [
    Fs("vfkit-share-user", "/Users"),
    Fs("vfkit-share-var-folders", "/var/folders"),
    Fs("vfkit-share-private", "/private")]

  predicate Collides(a: Fs, b: Fs) { a.tag == b.tag || a.shareDir == b.shareDir }

  predicate Fits(list: seq<Fs>, x: Fs) {
    forall i :: 0 <= i < |list| ==> !Collides(list[i], x)
  }

  function Extend(list: seq<Fs>, x: Fs): seq<Fs> {
    if Fits(list, x) then list + [x] else list
  }

  /** The list after the extensions were walked in this order. */
  function ExtendAll(list: seq<Fs>, order: seq<Fs>): seq<Fs> {
    if order == [] then list else Extend(ExtendAll(list, order[..|order| - 1]), order[|order| - 1])
  }

  class Mounts {
    var list: seq<Fs>

    constructor ()
      ensures list == BASE
    {
      list := BASE;
    }

    method Add(x: Fs)
      modifies this
      ensures list == if exists i :: 0 <= i < |old(list)| &&
                                     (old(list)[i].tag == x.tag || old(list)[i].shareDir == x.shareDir)
                      then old(list) else old(list) + [x]
      ensures list == Extend(old(list), x)
    {
      for i := 0 to |list|
        invariant list == old(list)
        invariant forall j :: 0 <= j < i ==> !Collides(list[j], x)
      {
        if list[i].tag == x.tag || list[i].shareDir == x.shareDir { return; }
      }
      list := list + [x];
    }

    /** The loop of `Run` over the extension map, in the order Go picked. */
    method AddAll(order: seq<Fs>)
      modifies this
      ensures list == ExtendAll(old(list), order)
    {
      for i := 0 to |order|
        invariant list == ExtendAll(old(list), order[..i])
      {
        assert order[..i + 1][..i] == order[..i];
        Add(order[i]);
      }
      assert order[..|order|] == order;
    }

    /** Devices and fstab lines come from the same list, position by position. */
    method ToVFKit() returns (devices: seq<(string, string)>)
      ensures |devices| == |list|
      ensures forall i :: 0 <= i < |list| ==> devices[i] == (list[i].shareDir, list[i].tag)
    {
      devices := [];
      for i := 0 to |list|
        invariant |devices| == i
        invariant forall j :: 0 <= j < i ==> devices[j] == (list[j].shareDir, list[j].tag)
      {
        devices := devices + [(list[i].shareDir, list[i].tag)];
      }
    }

    method ToFSTAB() returns (result: seq<string>)
      ensures |result| == |list|
      ensures forall i :: 0 <= i < |list| ==> result[i] == Line(list[i])
    {
      result := [];
      for i := 0 to |list|
        invariant |result| == i
        invariant forall j :: 0 <= j < i ==> result[j] == Line(list[j])
      {
        result := result + [Line(list[i])];
      }
    }

    /** The mount part of `cmd`: each line with an escaped newline behind it. */
    method FstabText() returns (fstab: string)
      ensures fstab == FstabOf(list)
    {
      var lines := ToFSTAB();
      fstab := "";
      for i := 0 to |lines|
        invariant fstab == FstabOf(list[..i])
      {
        assert list[..i + 1][..i] == list[..i];
        fstab := fstab + (lines[i] + NEWLINE);
      }
      assert list[..|list|] == list;
    }
  }

  // ------------------------------------------------------- what ends up mounted

  predicate Distinct(list: seq<Fs>) {
    forall i, j :: 0 <= i < j < |list| ==> !Collides(list[i], list[j])
  }

  lemma ExtendDistinct(list: seq<Fs>, x: Fs)
    requires Distinct(list)
    ensures Distinct(Extend(list, x))
  {
  }

  /** For every order: tags and directories are pairwise distinct, the list starts
      with the old one, holds nothing that was not asked for, and every entry that
      was left out collides with one that was kept. */
  lemma {:induction false} ExtendAllSafe(list: seq<Fs>, order: seq<Fs>)
    requires Distinct(list)
    ensures var r := ExtendAll(list, order);
            && Distinct(r) && list <= r
            && (forall i :: 0 <= i < |r| ==> r[i] in list || r[i] in order)
            && (forall x :: x in order && x !in r ==> !Fits(r, x))
  {
    if order != [] {
      var prev, x := order[..|order| - 1], order[|order| - 1];
      ExtendAllSafe(list, prev);
      var p, r := ExtendAll(list, prev), ExtendAll(list, order);
      ExtendDistinct(p, x);
      assert order == prev + [x];
      forall y | y in order && y !in r ensures !Fits(r, y) {
        if y in prev && y !in p {
          var i :| 0 <= i < |p| && Collides(p[i], y);
          assert r[i] == p[i];
        }
      }
    }
  }

  /** The same, entry by entry: after every walk no two entries share a tag or a
      directory, the three base entries come first, and every extension is on the list
      or shares its tag or its directory with an entry that is. */
  lemma MountListSafe(order: seq<Fs>)
    ensures var r := ExtendAll(BASE, order);
            && (forall i, j :: 0 <= i < j < |r| ==> r[i].tag != r[j].tag && r[i].shareDir != r[j].shareDir)
            && BASE <= r && (forall i :: |BASE| <= i < |r| ==> r[i] in order)
            && (forall x :: x in order ==> x in r || exists i :: 0 <= i < |r| &&
                                                       (r[i].tag == x.tag || r[i].shareDir == x.shareDir))
  {
    BaseDistinct();
    ExtendAllSafe(BASE, order);
    var r := ExtendAll(BASE, order);
    forall i, j | 0 <= i < j < |r| ensures r[i].tag != r[j].tag && r[i].shareDir != r[j].shareDir {
      assert !Collides(r[i], r[j]);
    }
    forall i | |BASE| <= i < |r| ensures r[i] in order {
      assert forall j :: 0 <= j < |BASE| ==> BASE[j] == r[j] && BASE[j] != r[i];
    }
    forall x | x in order && x !in r
      ensures exists i :: 0 <= i < |r| && (r[i].tag == x.tag || r[i].shareDir == x.shareDir)
    {
      assert !Fits(r, x);
      var i :| 0 <= i < |r| && Collides(r[i], x);
    }
  }

  /** The tags of the extensions are the keys of a map. */
  predicate DistinctTags(order: seq<Fs>) {
    forall i, j :: 0 <= i < j < |order| ==> order[i].tag != order[j].tag
  }

  /** No two extensions that the list has room for share a directory. */
  predicate DirsDistinct(list: seq<Fs>, order: seq<Fs>) {
    forall x, y :: x in order && y in order && x != y && Fits(list, x) && Fits(list, y) ==>
                     x.shareDir != y.shareDir
  }

  /** Then an extension is kept exactly when the list has room for it. */
  lemma {:induction false} KeptExactly(list: seq<Fs>, order: seq<Fs>, x: Fs)
    requires Distinct(list) && DistinctTags(order) && DirsDistinct(list, order)
    ensures x in ExtendAll(list, order) <==> x in list || (x in order && Fits(list, x))
  {
    if order != [] {
      var prev, y := order[..|order| - 1], order[|order| - 1];
      assert order == prev + [y];
      KeptExactly(list, prev, x);
      ExtendAllSafe(list, prev);
      var p := ExtendAll(list, prev);
      if Fits(list, y) {
        forall i | 0 <= i < |p| ensures !Collides(p[i], y) {
          KeptExactly(list, prev, p[i]);
          NoLaterCollision(list, order, p[i]);
        }
      } else {
        var i :| 0 <= i < |list| && Collides(list[i], y);
        assert p[i] == list[i];
      }
    }
  }

  lemma NoLaterCollision(list: seq<Fs>, order: seq<Fs>, z: Fs)
    requires DistinctTags(order) && DirsDistinct(list, order) && order != []
    requires Fits(list, order[|order| - 1])
    requires z in list || (z in order[..|order| - 1] && Fits(list, z))
    ensures !Collides(z, order[|order| - 1])
  {
    if z !in list {
      var j :| 0 <= j < |order| - 1 && order[..|order| - 1][j] == z;
      assert order[j] == z;
    }
  }

  /** The same extensions in another order. */
  ghost predicate Reordering(a: seq<Fs>, b: seq<Fs>) {
    DistinctTags(b) && forall x :: x in a <==> x in b
  }

  ghost predicate OrderMatters(list: seq<Fs>, order: seq<Fs>) {
    exists a, b, x :: Reordering(order, a) && Reordering(order, b)
                      && x in ExtendAll(list, a) && x !in ExtendAll(list, b)
  }

  lemma {:induction false} ExtendFirst(list: seq<Fs>, x: Fs, rest: seq<Fs>)
    ensures ExtendAll(list, [x] + rest) == ExtendAll(Extend(list, x), rest)
  {
    var order := [x] + rest;
    if rest == [] {
      assert order[..0] == [];
    } else {
      assert order[..|order| - 1] == [x] + rest[..|rest| - 1];
      ExtendFirst(list, x, rest[..|rest| - 1]);
    }
  }

  /** Moving an entry to the front keeps it. */
  lemma FrontIsKept(list: seq<Fs>, order: seq<Fs>, i: nat) returns (a: seq<Fs>)
    requires Distinct(list) && DistinctTags(order) && i < |order| && Fits(list, order[i])
    ensures Reordering(order, a) && order[i] in ExtendAll(list, a) && Distinct(ExtendAll(list, a))
  {
    var x, rest := order[i], order[..i] + order[i + 1..];
    a := [x] + rest;
    forall y ensures y in order <==> y in a {
      assert order == order[..i] + [x] + order[i + 1..];
    }
    ExtendFirst(list, x, rest);
    ExtendDistinct(list, x);
    ExtendAllSafe(Extend(list, x), rest);
    assert Extend(list, x)[|list|] == x;
  }

  /** Which extensions end up mounted depends on Go's map order exactly when two
      that the base list has room for share a directory. */
  lemma OrderMattersExactly(list: seq<Fs>, order: seq<Fs>)
    requires Distinct(list) && DistinctTags(order)
    ensures OrderMatters(list, order) <==> !DirsDistinct(list, order)
  {
    if DirsDistinct(list, order) {
      forall a, b, x | Reordering(order, a) && Reordering(order, b) && x in ExtendAll(list, a)
        ensures x in ExtendAll(list, b)
      {
        KeptExactly(list, a, x);
        KeptExactly(list, b, x);
      }
    } else {
      var x, y :| x in order && y in order && x != y && Fits(list, x) && Fits(list, y)
                  && x.shareDir == y.shareDir;
      var i :| 0 <= i < |order| && order[i] == x;
      var j :| 0 <= j < |order| && order[j] == y;
      TwoOrders(list, order, i, j);
    }
  }

  lemma TwoOrders(list: seq<Fs>, order: seq<Fs>, i: nat, j: nat)
    requires Distinct(list) && DistinctTags(order) && i < |order| && j < |order|
    requires Fits(list, order[i]) && Fits(list, order[j])
    requires order[i] != order[j] && order[i].shareDir == order[j].shareDir
    ensures OrderMatters(list, order)
  {
    var a := FrontIsKept(list, order, i);
    var b := FrontIsKept(list, order, j);
    assert order[i] !in ExtendAll(list, b);
  }

  // ----------------------------------------------------------------- the text

  const ESCAPED_SPACE := "\\\\\\\\040"   // four backslashes, 040
  const NEWLINE := "\\\\n"               // two backslashes, n
  const OPTS := "virtiofs" + [' '] + ("defaults" + [' '] + ("0" + [' '] + "0"))
  const OPTIONS := " " + OPTS

  /** `strings.ReplaceAll(s, " ", sub)`. */
  function ReplaceSpaces(s: string, sub: string): string {
    if s == [] then [] else (if s[0] == ' ' then sub else [s[0]]) + ReplaceSpaces(s[1..], sub)
  }

  function Line(x: Fs): string {
    x.tag + " " + ReplaceSpaces(x.shareDir, ESCAPED_SPACE) + OPTIONS
  }

  function FstabOf(list: seq<Fs>): string {
    if list == [] then "" else FstabOf(list[..|list| - 1]) + (Line(list[|list| - 1]) + NEWLINE)
  }

  // ------------------------------------------------------ shell, echo and mount

  /** Field splitting of an unquoted text in which the backslash is the only quoting
      character (POSIX.1-2017 Shell Command Language, section 2.2.1). */
  function Words(cur: string, s: string): seq<string>
    decreases |s|
  {
    if s == [] then (if cur == "" then [] else [cur])
    else if s[0] == '\\' && |s| > 1 then Words(cur + [s[1]], s[2..])
    else if s[0] == ' ' then (if cur == "" then [] else [cur]) + Words("", s[1..])
    else Words(cur + [s[0]], s[1..])
  }

  /** The escapes of `echo -e` that occur here, `\\` and `\n`; others are kept. */
  function EchoDecode(s: string): string
    decreases |s|
  {
    if s == [] then []
    else if s[0] == '\\' && |s| > 1 && s[1] == '\\' then "\\" + EchoDecode(s[2..])
    else if s[0] == '\\' && |s| > 1 && s[1] == 'n' then "\n" + EchoDecode(s[2..])
    else [s[0]] + EchoDecode(s[1..])
  }

  /** `echo` takes every leading word of this shape for options, also after `-e`. */
  predicate IsOption(w: string) {
    |w| > 1 && w[0] == '-' && forall i :: 1 <= i < |w| ==> w[i] in {'n', 'e', 'E'}
  }

  datatype Mode = Mode(escapes: bool, newline: bool)

  function SetMode(m: Mode, letters: string): Mode
    decreases |letters|
  {
    if letters == [] then m
    else if letters[0] == 'n' then SetMode(m.(newline := false), letters[1..])
    else SetMode(m.(escapes := letters[0] == 'e'), letters[1..])
  }

  function Output(text: string, m: Mode): string {
    (if m.escapes then EchoDecode(text) else text) + (if m.newline then "\n" else "")
  }

  function EchoWith(words: seq<string>, m: Mode): string
    decreases |words|
  {
    if words != [] && IsOption(words[0]) then EchoWith(words[1..], SetMode(m, words[0][1..]))
    else Output(Join(words, ' '), m)
  }

  /** What `echo -e` appends to the guest's file. */
  function Echo(words: seq<string>): string { EchoWith(words, Mode(true, true)) }

  function Unescape(s: string): string
    decreases |s|
  {
    if s == [] then []
    else if |s| >= 4 && s[..4] == "\\040" then " " + Unescape(s[4..])
    else [s[0]] + Unescape(s[1..])
  }

  function NonEmpty(parts: seq<string>): seq<string> {
    if parts == [] then [] else (if parts[0] == "" then [] else [parts[0]]) + NonEmpty(parts[1..])
  }

  /** One line of an fstab, when it is a virtiofs mount with default options. */
  function Entry(line: string): Option<Fs> {
    var fields := NonEmpty(Split(line, ' '));
    if |fields| == 6 && fields[2..] == ["virtiofs", "defaults", "0", "0"]
    then Some(Fs(fields[0], Unescape(fields[1]))) else None
  }

  function Entries(lines: seq<string>): seq<Fs> {
    if lines == [] then [] else
      (match Entry(lines[0]) case Some(x) => [x] case None => []) + Entries(lines[1..])
  }

  function ParseFstab(text: string): seq<Fs> { Entries(Split(text, '\n')) }

  // ---------------------------------------------------------------- round trip

  /** Characters without meaning to the shell, `echo` and fstab. */
  predicate Safe(c: char) {
    || 'a' <= c <= 'z' || 'A' <= c <= 'Z' || '0' <= c <= '9'
    || c in {'-', '_', '.', '/', '@', '%', '+', ':', ','}
  }

  /** A tag may be empty; a directory exists, so its name is not. */
  predicate SafeTag(s: string) { forall i :: 0 <= i < |s| ==> Safe(s[i]) }

  predicate SafeDir(s: string) { s != [] && forall i :: 0 <= i < |s| ==> Safe(s[i]) || s[i] == ' ' }

  predicate SafeList(list: seq<Fs>) {
    forall i :: 0 <= i < |list| ==> SafeTag(list[i].tag) && SafeDir(list[i].shareDir)
  }

  predicate Plain(s: string) { ' ' !in s && '\\' !in s }

  /** The line with another stand-in for spaces and another line end. */
  function LineWith(x: Fs, space: string, eol: string): string {
    x.tag + (" " + (ReplaceSpaces(x.shareDir, space) + (OPTIONS + eol)))
  }

  function TextWith(list: seq<Fs>, space: string, eol: string): string {
    if list == [] then "" else LineWith(list[0], space, eol) + TextWith(list[1..], space, eol)
  }

  lemma {:induction false} FstabOfForward(list: seq<Fs>)
    ensures FstabOf(list) == TextWith(list, ESCAPED_SPACE, NEWLINE)
  {
    if list != [] {
      var prev, x := list[..|list| - 1], list[|list| - 1];
      FstabOfForward(prev);
      TextAppend(prev, x, ESCAPED_SPACE, NEWLINE);
      assert prev + [x] == list;
      LineShape(x.tag, ReplaceSpaces(x.shareDir, ESCAPED_SPACE), OPTIONS, NEWLINE);
    }
  }

  lemma LineShape(tag: string, dir: string, options: string, eol: string)
    ensures tag + " " + dir + options + eol == tag + (" " + (dir + (options + eol)))
  {
    Assoc(tag, " ", dir + options + eol);
    Assoc(tag + " ", dir + options, eol);
    Assoc(tag + " ", dir, options);
    Assoc(dir, options, eol);
    Assoc(" ", dir, options + eol);
  }

  lemma {:induction false} TextAppend(list: seq<Fs>, x: Fs, space: string, eol: string)
    ensures TextWith(list + [x], space, eol) == TextWith(list, space, eol) + LineWith(x, space, eol)
  {
    var line := LineWith(x, space, eol);
    if list == [] {
      assert list + [x] == [x] && [x][1..] == [];
      assert "" + line == line + "";
    } else {
      assert (list + [x])[1..] == list[1..] + [x];
      TextAppend(list[1..], x, space, eol);
      Assoc(LineWith(list[0], space, eol), TextWith(list[1..], space, eol), line);
    }
  }

  // the shell

  lemma {:induction false} WordsPlain(cur: string, w: string, s: string)
    requires Plain(w)
    ensures Words(cur, w + s) == Words(cur + w, s)
    decreases |w|
  {
    if w == [] {
      assert w + s == s && cur + w == cur;
    } else {
      assert (w + s)[1..] == w[1..] + s;
      WordsPlain(cur + [w[0]], w[1..], s);
      Assoc(cur, [w[0]], w[1..]);
      assert [w[0]] + w[1..] == w;
    }
  }

  lemma WordsSpace(cur: string, s: string)
    requires cur != ""
    ensures Words(cur, " " + s) == [cur] + Words("", s)
  {
    assert (" " + s)[1..] == s;
  }

  lemma WordsQuoted(cur: string, s: string)
    ensures Words(cur, "\\\\" + s) == Words(cur + "\\", s)
  {
    assert ("\\\\" + s)[2..] == s;
  }

  const ONCE := "\\040"
  const TWICE := "\\\\040"

  lemma WordsEscaped(cur: string, s: string)
    ensures Words(cur, ESCAPED_SPACE + s) == Words(cur + TWICE, s)
  {
    assert ESCAPED_SPACE + s == "\\\\" + ("\\\\" + ("040" + s));
    WordsQuoted(cur, "\\\\" + ("040" + s));
    WordsQuoted(cur + "\\", "040" + s);
    WordsPlain(cur + "\\" + "\\", "040", s);
    assert cur + "\\" + "\\" + "040" == cur + TWICE;
  }

  lemma {:induction false} WordsDir(cur: string, dir: string, s: string)
    requires forall i :: 0 <= i < |dir| ==> Safe(dir[i]) || dir[i] == ' '
    ensures Words(cur, ReplaceSpaces(dir, ESCAPED_SPACE) + s) == Words(cur + ReplaceSpaces(dir, TWICE), s)
    decreases |dir|
  {
    if dir == [] {
      assert ReplaceSpaces(dir, ESCAPED_SPACE) + s == s && cur + ReplaceSpaces(dir, TWICE) == cur;
    } else {
      var four, two := ReplaceSpaces(dir[1..], ESCAPED_SPACE), ReplaceSpaces(dir[1..], TWICE);
      if dir[0] == ' ' {
        Assoc(ESCAPED_SPACE, four, s);
        WordsEscaped(cur, four + s);
        WordsDir(cur + TWICE, dir[1..], s);
        Assoc(cur, TWICE, two);
      } else {
        Assoc([dir[0]], four, s);
        WordsPlain(cur, [dir[0]], four + s);
        WordsDir(cur + [dir[0]], dir[1..], s);
        Assoc(cur, [dir[0]], two);
      }
    }
  }

  /** The arguments of `echo`, joined by single spaces. */
  function Joined(cur: string, s: string): string { Join(Words(cur, s), ' ') }

  lemma {:induction false} WordsNotNone(cur: string, s: string)
    requires cur != ""
    ensures Words(cur, s) != []
    decreases |s|
  {
    if s != [] && s[0] != ' ' {
      if s[0] == '\\' && |s| > 1 {
        WordsNotNone(cur + [s[1]], s[2..]);
      } else {
        WordsNotNone(cur + [s[0]], s[1..]);
      }
    }
  }

  lemma JoinedBreak(cur: string, next: string, s: string, t: string)
    requires cur != "" && next != "" && Words("", s) == Words(next, t)
    ensures Joined(cur, " " + s) == cur + (" " + Joined(next, t))
  {
    WordsSpace(cur, s);
    WordsNotNone(next, t);
    var ws := [cur] + Words(next, t);
    assert ws[1..] == Words(next, t);
    Assoc(cur, " ", Joined(next, t));
  }

  lemma JoinedWord(cur: string, w: string, s: string)
    requires cur != "" && w != "" && Plain(w)
    ensures Joined(cur, " " + (w + s)) == cur + (" " + Joined(w, s))
  {
    WordsPlain("", w, s);
    assert "" + w == w;
    JoinedBreak(cur, w, w + s, s);
  }

  lemma JoinedOptions(cur: string, s: string)
    requires cur != ""
    ensures Joined(cur, OPTIONS + (NEWLINE + s))
         == cur + (" " + ("virtiofs" + (" " + ("defaults" + (" " + ("0" + (" " + Joined("0\\n", s))))))))
  {
    var t0 := "0" + (NEWLINE + s);
    var t1 := "0" + (" " + t0);
    var t2 := "defaults" + (" " + t1);
    assert OPTIONS + (NEWLINE + s) == " " + ("virtiofs" + (" " + t2));
    JoinedWord(cur, "virtiofs", " " + t2);
    JoinedWord("virtiofs", "defaults", " " + t1);
    JoinedWord("defaults", "0", " " + t0);
    JoinedWord("0", "0", NEWLINE + s);
    JoinedNewline(s);
  }

  lemma JoinedNewline(s: string)
    ensures Joined("0", NEWLINE + s) == Joined("0\\n", s)
  {
    assert NEWLINE + s == "\\\\" + ("n" + s);
    WordsQuoted("0", "n" + s);
    WordsPlain("0" + "\\", "n", s);
    assert "0" + "\\" + "n" == "0\\n";
  }

  lemma SafeIsPlain(tag: string)
    requires SafeTag(tag)
    ensures Plain(tag) && '\n' !in tag
  {
    assert !Safe(' ') && !Safe('\\') && !Safe('\n');
  }

  lemma JoinedLine(cur: string, x: Fs, s: string)
    requires SafeTag(x.tag) && SafeDir(x.shareDir) && cur + x.tag != ""
    ensures Joined(cur, LineWith(x, ESCAPED_SPACE, NEWLINE) + s)
         == cur + (x.tag + (" " + (ReplaceSpaces(x.shareDir, TWICE) +
            (" " + ("virtiofs" + (" " + ("defaults" + (" " + ("0" + (" " + Joined("0\\n", s)))))))))))
  {
    var d4, d2 := ReplaceSpaces(x.shareDir, ESCAPED_SPACE), ReplaceSpaces(x.shareDir, TWICE);
    var t := OPTIONS + (NEWLINE + s);
    LineTail(x.tag, d4, OPTIONS, NEWLINE, s);
    SafeIsPlain(x.tag);
    WordsPlain(cur, x.tag, " " + (d4 + t));
    WordsDir("", x.shareDir, t);
    assert "" + d2 == d2;
    JoinedBreak(cur + x.tag, d2, d4 + t, t);
    JoinedOptions(d2, s);
    Assoc(cur, x.tag, " " + Joined(d2, t));
  }

  lemma LineTail(tag: string, dir: string, options: string, eol: string, s: string)
    ensures tag + (" " + (dir + (options + eol))) + s == tag + (" " + (dir + (options + (eol + s))))
  {
    Assoc(tag, " " + (dir + (options + eol)), s);
    Assoc(" ", dir + (options + eol), s);
    Assoc(dir, options + eol, s);
    Assoc(options, eol, s);
  }

  lemma OptionsText(s: string)
    ensures " " + ("virtiofs" + (" " + ("defaults" + (" " + ("0" + (" " + ("0\\n" + s)))))))
         == OPTIONS + ("\\n" + s)
  {
  }

  /** The shell and the joining by `echo` together remove one level of escapes, unless
      the text starts with a space. */
  lemma {:induction false} ShellStage(cur: string, list: seq<Fs>)
    requires SafeList(list) && (list != [] ==> cur + list[0].tag != "")
    ensures Joined(cur, TextWith(list, ESCAPED_SPACE, NEWLINE)) == cur + TextWith(list, TWICE, "\\n")
    decreases |list|
  {
    if list == [] {
      assert cur + "" == cur;
    } else {
      var x, rest := list[0], TextWith(list[1..], TWICE, "\\n");
      JoinedLine(cur, x, TextWith(list[1..], ESCAPED_SPACE, NEWLINE));
      ShellStage("0\\n", list[1..]);
      OptionsText(rest);
      LineTail(x.tag, ReplaceSpaces(x.shareDir, TWICE), OPTIONS, "\\n", rest);
    }
  }

  // echo -e

  lemma {:induction false} EchoPlain(w: string, s: string)
    requires '\\' !in w
    ensures EchoDecode(w + s) == w + EchoDecode(s)
  {
    if w == [] {
      assert w + s == s;
    } else {
      assert (w + s)[1..] == w[1..] + s;
      EchoPlain(w[1..], s);
      Assoc([w[0]], w[1..], EchoDecode(s));
      assert [w[0]] + w[1..] == w;
    }
  }

  lemma EchoEscaped(s: string)
    ensures EchoDecode(TWICE + s) == ONCE + EchoDecode(s)
    ensures EchoDecode("\\n" + s) == "\n" + EchoDecode(s)
  {
    assert TWICE + s == "\\\\" + ("040" + s);
    assert ("\\\\" + ("040" + s))[2..] == "040" + s;
    EchoPlain("040", s);
    assert "\\" + ("040" + EchoDecode(s)) == ONCE + EchoDecode(s);
    assert ("\\n" + s)[2..] == s;
  }

  lemma {:induction false} EchoDir(dir: string, s: string)
    requires forall i :: 0 <= i < |dir| ==> Safe(dir[i]) || dir[i] == ' '
    ensures EchoDecode(ReplaceSpaces(dir, TWICE) + s) == ReplaceSpaces(dir, ONCE) + EchoDecode(s)
  {
    if dir == [] {
      assert ReplaceSpaces(dir, TWICE) + s == s && ReplaceSpaces(dir, ONCE) + EchoDecode(s) == EchoDecode(s);
    } else {
      var two, one := ReplaceSpaces(dir[1..], TWICE), ReplaceSpaces(dir[1..], ONCE);
      EchoDir(dir[1..], s);
      if dir[0] == ' ' {
        Assoc(TWICE, two, s);
        EchoEscaped(two + s);
        Assoc(ONCE, one, EchoDecode(s));
      } else {
        Assoc([dir[0]], two, s);
        EchoPlain([dir[0]], two + s);
        Assoc([dir[0]], one, EchoDecode(s));
      }
    }
  }

  lemma EchoParts(tag: string, dir: string, opts: string, s: string)
    requires Plain(tag) && '\\' !in opts
    requires forall i :: 0 <= i < |dir| ==> Safe(dir[i]) || dir[i] == ' '
    ensures EchoDecode(tag + (" " + (ReplaceSpaces(dir, TWICE) + (opts + ("\\n" + s)))))
         == tag + (" " + (ReplaceSpaces(dir, ONCE) + (opts + ("\n" + EchoDecode(s)))))
  {
    var t := opts + ("\\n" + s);
    EchoPlain(tag, " " + (ReplaceSpaces(dir, TWICE) + t));
    EchoPlain(" ", ReplaceSpaces(dir, TWICE) + t);
    EchoDir(dir, t);
    EchoPlain(opts, "\\n" + s);
    EchoEscaped(s);
  }

  lemma OptionsPlain()
    ensures '\\' !in OPTIONS && '\n' !in OPTIONS
  {
  }

  lemma EchoLine(x: Fs, s: string)
    requires SafeTag(x.tag) && SafeDir(x.shareDir)
    ensures EchoDecode(LineWith(x, TWICE, "\\n") + s) == LineWith(x, ONCE, "\n") + EchoDecode(s)
  {
    LineTail(x.tag, ReplaceSpaces(x.shareDir, TWICE), OPTIONS, "\\n", s);
    LineTail(x.tag, ReplaceSpaces(x.shareDir, ONCE), OPTIONS, "\n", EchoDecode(s));
    SafeIsPlain(x.tag);
    OptionsPlain();
    EchoParts(x.tag, x.shareDir, OPTIONS, s);
  }

  lemma {:induction false} EchoStage(list: seq<Fs>)
    requires SafeList(list)
    ensures EchoDecode(TextWith(list, TWICE, "\\n")) == TextWith(list, ONCE, "\n")
  {
    if list != [] {
      EchoLine(list[0], TextWith(list[1..], TWICE, "\\n"));
      EchoStage(list[1..]);
    }
  }

  // fstab

  const FIELDS := ["virtiofs", "defaults", "0", "0"]

  lemma {:induction false} EscapedDir(dir: string)
    requires forall i :: 0 <= i < |dir| ==> Safe(dir[i]) || dir[i] == ' '
    ensures var d := ReplaceSpaces(dir, ONCE);
            ' ' !in d && '\n' !in d && |d| >= |dir|
  {
    if dir != [] {
      EscapedDir(dir[1..]);
    }
  }

  lemma {:induction false} UnescapeDir(dir: string)
    requires forall i :: 0 <= i < |dir| ==> Safe(dir[i]) || dir[i] == ' '
    ensures Unescape(ReplaceSpaces(dir, ONCE)) == dir
  {
    if dir != [] {
      UnescapeDir(dir[1..]);
      var rest := ReplaceSpaces(dir[1..], ONCE);
      assert dir == [dir[0]] + dir[1..];
      if dir[0] == ' ' {
        UnescapeSpace(rest);
      } else {
        UnescapeOther(dir[0], rest);
      }
    }
  }

  lemma UnescapeSpace(rest: string)
    ensures Unescape(ONCE + rest) == " " + Unescape(rest)
  {
    assert (ONCE + rest)[..4] == ONCE && (ONCE + rest)[4..] == rest;
  }

  lemma UnescapeOther(c: char, rest: string)
    requires c != '\\'
    ensures Unescape([c] + rest) == [c] + Unescape(rest)
  {
    var s := [c] + rest;
    assert s[1..] == rest;
    assert |s| >= 4 ==> s[..4][0] == c;
  }

  lemma {:induction false} AllNonEmpty(parts: seq<string>)
    requires forall i :: 0 <= i < |parts| ==> parts[i] != ""
    ensures NonEmpty(parts) == parts
  {
    if parts != [] {
      AllNonEmpty(parts[1..]);
      assert parts == [parts[0]] + parts[1..];
    }
  }

  lemma SplitFields(tag: string, dir: string, opts: string)
    requires ' ' !in tag && ' ' !in dir
    ensures Split(tag + (" " + (dir + (" " + opts))), ' ') == [tag, dir] + Split(opts, ' ')
  {
    Assoc(tag, " ", dir + (" " + opts));
    Assoc(dir, " ", opts);
    SplitHead(tag, ' ', dir + (" " + opts));
    SplitHead(dir, ' ', opts);
    Assoc([tag], [dir], Split(opts, ' '));
  }

  lemma SplitFour(a: string, b: string, c: string, d: string)
    requires ' ' !in a && ' ' !in b && ' ' !in c && ' ' !in d
    ensures Split(a + [' '] + (b + [' '] + (c + [' '] + d)), ' ') == [a, b, c, d]
  {
    SplitHead(a, ' ', b + [' '] + (c + [' '] + d));
    SplitHead(b, ' ', c + [' '] + d);
    SplitHead(c, ' ', d);
  }

  lemma OptionFields()
    ensures Split(OPTS, ' ') == FIELDS
  {
    SplitFour("virtiofs", "defaults", "0", "0");
  }

  lemma OptionShape()
    ensures OPTIONS + "" == " " + OPTS && '\n' !in OPTIONS + ""
  {
  }

  lemma EntryOfFields(line: string, tag: string, dir: string)
    requires Split(line, ' ') == [tag, dir] + FIELDS && tag != "" && dir != ""
    ensures Entry(line) == Some(Fs(tag, Unescape(dir)))
  {
    var fields := [tag, dir] + FIELDS;
    AllNonEmpty(fields);
    assert fields[2..] == FIELDS;
  }

  /** A line without tag has five fields and is no entry. */
  lemma NoEntryOfFields(line: string, dir: string)
    requires Split(line, ' ') == ["", dir] + FIELDS && dir != ""
    ensures Entry(line) == None
  {
    var fields := [dir] + FIELDS;
    AllNonEmpty(fields);
    assert (["", dir] + FIELDS)[1..] == fields;
  }

  lemma EntryOfLine(x: Fs)
    requires SafeTag(x.tag) && SafeDir(x.shareDir)
    ensures Entry(LineWith(x, ONCE, "")) == if x.tag == "" then None else Some(x)
  {
    var d := ReplaceSpaces(x.shareDir, ONCE);
    EscapedDir(x.shareDir);
    UnescapeDir(x.shareDir);
    SafeIsPlain(x.tag);
    OptionFields();
    OptionShape();
    SplitFields(x.tag, d, OPTS);
    if x.tag == "" {
      NoEntryOfFields(LineWith(x, ONCE, ""), d);
    } else {
      EntryOfFields(LineWith(x, ONCE, ""), x.tag, d);
    }
  }

  lemma LineHasNoEnd(x: Fs)
    requires SafeTag(x.tag) && SafeDir(x.shareDir)
    ensures '\n' !in LineWith(x, ONCE, "")
  {
    EscapedDir(x.shareDir);
    SafeIsPlain(x.tag);
    OptionShape();
  }

  lemma BlankLine(line: string)
    requires line == ""
    ensures Entry(line) == None && Split(line, '\n') == [line]
  {
    assert Split(line, ' ') == [line];
    assert NonEmpty([line]) == [] by { assert [line][1..] == []; }
  }

  lemma BlankEnd(blank: string)
    requires blank == ""
    ensures ParseFstab(blank + "\n") == []
  {
    BlankLine(blank);
    assert blank + "\n" == blank + ['\n'] + blank;
    SplitHead(blank, '\n', blank);
    var lines := [blank] + [blank];
    assert lines[1..] == [blank] && [blank][1..] == [];
    assert Split(blank + "\n", '\n') == lines;
    assert Entries([blank]) == [];
    assert Entries(lines) == [];
  }

  lemma ParseLine(line: string, rest: string)
    requires '\n' !in line
    ensures ParseFstab(line + ['\n'] + rest) ==
            (match Entry(line) case Some(x) => [x] case None => []) + ParseFstab(rest)
  {
    SplitHead(line, '\n', rest);
    var lines := [line] + Split(rest, '\n');
    assert lines[1..] == Split(rest, '\n');
  }

  /** The entries that have a tag. */
  function Tagged(list: seq<Fs>): seq<Fs> {
    if list == [] then [] else (if list[0].tag == "" then [] else [list[0]]) + Tagged(list[1..])
  }

  predicate AllTagged(list: seq<Fs>) { forall i :: 0 <= i < |list| ==> list[i].tag != "" }

  lemma {:induction false} TaggedExactly(list: seq<Fs>)
    ensures |Tagged(list)| <= |list| && (Tagged(list) == list <==> AllTagged(list))
  {
    if list != [] {
      TaggedExactly(list[1..]);
      assert list == [list[0]] + list[1..];
      assert AllTagged(list) <==> list[0].tag != "" && AllTagged(list[1..]);
    }
  }

  lemma FstabStep(x: Fs, rest: string)
    requires SafeTag(x.tag) && SafeDir(x.shareDir)
    ensures ParseFstab(LineWith(x, ONCE, "\n") + rest + "\n")
         == (if x.tag == "" then [] else [x]) + ParseFstab(rest + "\n")
  {
    EntryOfLine(x);
    LineHasNoEnd(x);
    LineEnd(x.tag, ReplaceSpaces(x.shareDir, ONCE), OPTIONS, rest);
    ParseLine(LineWith(x, ONCE, ""), rest + "\n");
  }

  /** The reader of fstab finds the entries that have a tag. */
  lemma {:induction false} FstabStage(list: seq<Fs>)
    requires SafeList(list)
    ensures ParseFstab(TextWith(list, ONCE, "\n") + "\n") == Tagged(list)
  {
    if list == [] {
      BlankEnd(TextWith(list, ONCE, "\n"));
    } else {
      FstabStage(list[1..]);
      FstabStep(list[0], TextWith(list[1..], ONCE, "\n"));
    }
  }

  lemma LineEnd(tag: string, dir: string, options: string, rest: string)
    ensures tag + (" " + (dir + (options + "\n"))) + rest + "\n"
         == tag + (" " + (dir + (options + ""))) + ['\n'] + (rest + "\n")
  {
    LineTail(tag, dir, options, "", "\n");
    assert "" + "\n" == "\n";
    var line := tag + (" " + (dir + (options + "")));
    Assoc(line + "\n", rest, "\n");
  }

  /** Every list the program prints starts like this, with `vfkit-share-user`. */
  predicate Headed(list: seq<Fs>) { list != [] && list[0].tag != "" && !IsOption(list[0].tag) }

  lemma FirstWord(list: seq<Fs>)
    requires SafeList(list) && Headed(list)
    ensures Echo(Words("", FstabOf(list))) == EchoDecode(Joined("", FstabOf(list))) + "\n"
  {
    var x, s := list[0], TextWith(list[1..], ESCAPED_SPACE, NEWLINE);
    var rest := ReplaceSpaces(x.shareDir, ESCAPED_SPACE) + (OPTIONS + (NEWLINE + s));
    FstabOfForward(list);
    LineTail(x.tag, ReplaceSpaces(x.shareDir, ESCAPED_SPACE), OPTIONS, NEWLINE, s);
    SafeIsPlain(x.tag);
    WordsPlain("", x.tag, " " + rest);
    assert "" + x.tag == x.tag;
    WordsSpace(x.tag, rest);
  }

  /** The text handed to the guest's shell, once the shell, `echo -e` and the reader
      of fstab have each undone one level of escaping, is the mount list without its
      untagged entries, in order, spaces in directory names included: the list itself
      exactly when no tag is empty. */
  lemma FstabRoundTrip(list: seq<Fs>)
    requires SafeList(list) && Headed(list)
    ensures var got := ParseFstab(Echo(Words("", FstabOf(list))));
            got == Tagged(list) && (got == list <==> AllTagged(list))
  {
    FirstWord(list);
    FstabOfForward(list);
    ShellStage("", list);
    assert "" + TextWith(list, TWICE, "\\n") == TextWith(list, TWICE, "\\n");
    EchoStage(list);
    FstabStage(list);
    TaggedExactly(list);
  }

  lemma BaseDistinct()
    ensures Distinct(BASE)
  {
    assert |BASE[0].tag| != |BASE[1].tag| && |BASE[0].shareDir| != |BASE[1].shareDir|;
    assert |BASE[0].tag| != |BASE[2].tag| && |BASE[0].shareDir| != |BASE[2].shareDir|;
    assert |BASE[1].tag| != |BASE[2].tag| && |BASE[1].shareDir| != |BASE[2].shareDir|;
  }

  lemma BaseSafe()
    ensures SafeList(BASE)
  {
    UsersSafe();
    FoldersSafe();
    PrivateSafe();
  }

  lemma UsersSafe()
    ensures SafeTag(BASE[0].tag) && SafeDir(BASE[0].shareDir)
  {
  }

  lemma FoldersSafe()
    ensures SafeTag(BASE[1].tag) && SafeDir(BASE[1].shareDir)
  {
  }

  lemma PrivateSafe()
    ensures SafeTag(BASE[2].tag) && SafeDir(BASE[2].shareDir)
  {
  }

  /** What the guest mounts after one walk of the extension map. */
  function GuestMounts(order: seq<Fs>): seq<Fs> {
    ParseFstab(Echo(Words("", FstabOf(ExtendAll(BASE, order)))))
  }

  lemma BuiltList(order: seq<Fs>)
    requires SafeList(order)
    ensures var list := ExtendAll(BASE, order); SafeList(list) && Headed(list) && Distinct(list) && BASE <= list
  {
    BaseDistinct();
    BaseSafe();
    ExtendAllSafe(BASE, order);
    var list := ExtendAll(BASE, order);
    forall i | 0 <= i < |list| ensures SafeTag(list[i].tag) && SafeDir(list[i].shareDir) {
      assert list[i] in BASE || list[i] in order;
    }
    assert list[0] == BASE[0] && !IsOption(BASE[0].tag);
  }

  /** After every walk of every extension map over the alphabet, the guest mounts the
      tagged entries of the list, and so all of it exactly when no tag is empty. */
  lemma GuestMountsList(order: seq<Fs>)
    requires SafeList(order)
    ensures var list := ExtendAll(BASE, order);
            && Distinct(list) && GuestMounts(order) == Tagged(list)
            && (GuestMounts(order) == list <==> AllTagged(list))
  {
    BuiltList(order);
    FstabRoundTrip(ExtendAll(BASE, order));
  }

  /** The three base directories are mounted whatever the extensions are. */
  lemma BaseAlwaysMounted(order: seq<Fs>)
    requires SafeList(order)
    ensures Fs("vfkit-share-user", "/Users") in GuestMounts(order)
    ensures Fs("vfkit-share-var-folders", "/var/folders") in GuestMounts(order)
    ensures Fs("vfkit-share-private", "/private") in GuestMounts(order)
  {
    BuiltList(order);
    GuestMountsList(order);
    var list := ExtendAll(BASE, order);
    forall i: nat | i < 3 ensures BASE[i] in Tagged(list) {
      assert list[i] == BASE[i];
      TaggedKeeps(list, i);
    }
    assert BASE[0] in Tagged(list) && BASE[1] in Tagged(list) && BASE[2] in Tagged(list);
  }

  lemma {:induction false} TaggedKeeps(list: seq<Fs>, i: nat)
    requires i < |list| && list[i].tag != ""
    ensures list[i] in Tagged(list)
  {
    if i > 0 {
      TaggedKeeps(list[1..], i - 1);
    }
  }

  ghost predicate AlwaysMounted(order: seq<Fs>) {
    forall a :: Reordering(order, a) ==> GuestMounts(a) == ExtendAll(BASE, a)
  }

  lemma NeverKept(list: seq<Fs>, order: seq<Fs>, x: Fs)
    requires Distinct(list) && !Fits(list, x) && x !in list
    ensures x !in ExtendAll(list, order)
  {
    ExtendAllSafe(list, order);
    var r := ExtendAll(list, order);
    var i :| 0 <= i < |list| && Collides(list[i], x);
    assert r[i] == list[i];
  }

  lemma UntaggedRejected(a: seq<Fs>)
    requires SafeList(a) && forall x :: x in a && x.tag == "" ==> !Fits(BASE, x)
    ensures GuestMounts(a) == ExtendAll(BASE, a)
  {
    var list := ExtendAll(BASE, a);
    BaseDistinct();
    ExtendAllSafe(BASE, a);
    GuestMountsList(a);
    forall i | 0 <= i < |list| ensures list[i].tag != "" {
      assert list[i] in BASE || list[i] in a;
      if list[i] !in BASE && !Fits(BASE, list[i]) { NeverKept(BASE, a, list[i]); }
    }
  }

  /** Seen from the command line: whatever the walk, everything on the list is mounted
      exactly when no untagged extension fits the base list. */
  lemma AlwaysMountedExactly(order: seq<Fs>)
    requires SafeList(order) && DistinctTags(order)
    ensures AlwaysMounted(order) <==> forall x :: x in order && x.tag == "" ==> !Fits(BASE, x)
  {
    if forall x :: x in order && x.tag == "" ==> !Fits(BASE, x) {
      forall a | Reordering(order, a) ensures GuestMounts(a) == ExtendAll(BASE, a) {
        SafeReordered(order, a);
        UntaggedRejected(a);
      }
    } else {
      var x :| x in order && x.tag == "" && Fits(BASE, x);
      var i :| 0 <= i < |order| && order[i] == x;
      BaseDistinct();
      var a := FrontIsKept(BASE, order, i);
      SafeReordered(order, a);
      GuestMountsList(a);
      assert !AllTagged(ExtendAll(BASE, a));
    }
  }

  lemma SafeReordered(order: seq<Fs>, a: seq<Fs>)
    requires SafeList(order) && forall x :: x in order <==> x in a
    ensures SafeList(a)
  {
    forall i | 0 <= i < |a| ensures SafeTag(a[i].tag) && SafeDir(a[i].shareDir) {
      assert a[i] in order;
    }
  }

  /** `--extend-share-dir=:/tmp` is accepted, and its mount is lost. */
  lemma UntaggedMountLost()
    ensures var x := Fs("", "/tmp");
            ExtendAll(BASE, [x]) == BASE + [x] && x !in GuestMounts([x])
  {
    var x := Fs("", "/tmp");
    assert [x][..0] == [];
    assert ExtendAll(BASE, []) == BASE;
    assert |BASE[0].shareDir| != 4 && |BASE[1].shareDir| != 4 && |BASE[2].shareDir| != 4;
    assert Fits(BASE, x);
    assert SafeDir("/tmp");
    GuestMountsList([x]);
    TaggedHasTag(BASE + [x], x);
  }

  lemma {:induction false} TaggedHasTag(list: seq<Fs>, x: Fs)
    requires x.tag == ""
    ensures x !in Tagged(list)
  {
    if list != [] {
      TaggedHasTag(list[1..], x);
    }
  }
}
