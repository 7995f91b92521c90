/** The four versioned images and the `-versions` flag (`parseVersions`). */
module Versions {
  import opened Prelude
  import opened Text

  datatype Key = Kernel | Initrd | Rootfs | Data

  const KEYS := [Kernel, Initrd, Rootfs, Data]

  function Name(k: Key): string {
    match k
    case Kernel => "kernel"
    case Initrd => "initrd"
    case Rootfs => "rootfs"
    case Data => "data"
  }

  function KeyOf(name: string): Option<Key> {
    if name == "kernel" then Some(Kernel)
    else if name == "initrd" then Some(Initrd)
    else if name == "rootfs" then Some(Rootfs)
    else if name == "data" then Some(Data)
    else None
  }

  /** One version per key: the record on disk, and the parsed flag. */
  datatype Record = Record(kernel: string, initrd: string, rootfs: string, data: string) {
    function Get(k: Key): string {
      match k
      case Kernel => kernel
      case Initrd => initrd
      case Rootfs => rootfs
      case Data => data
    }

    function Set(k: Key, v: string): (r: Record)
      ensures r.Get(k) == v && forall j :: j != k ==> r.Get(j) == Get(j)
    {
      match k
      case Kernel => this.(kernel := v)
      case Initrd => this.(initrd := v)
      case Rootfs => this.(rootfs := v)
      case Data => this.(data := v)
    }
  }

  const EMPTY := Record("", "", "", "")

  lemma SameRecord(a: Record, b: Record)
    requires forall k :: a.Get(k) == b.Get(k)
    ensures a == b
  {
    assert a.Get(Kernel) == b.Get(Kernel) && a.Get(Initrd) == b.Get(Initrd)
        && a.Get(Rootfs) == b.Get(Rootfs) && a.Get(Data) == b.Get(Data);
  }

  predicate AllSet(r: Record) {
    forall k: Key :: r.Get(k) != ""
  }

  /** The key and version of one comma-separated item, if it is well formed. */
  function Item(text: string): Option<(Key, string)> {
    var parts := Split(TrimSpace(text), '=');
    if |parts| != 2 then None else
    match KeyOf(TrimSpace(parts[0]))
    case None => None
    case Some(k) => Some((k, TrimSpace(parts[1])))
  }

  type Parsed = seq<Option<(Key, string)>>

  function Items(versions: string): Parsed {
    var parts := Split(versions, ',');
    seq(|parts|, i requires 0 <= i < |parts| => Item(parts[i]))
  }

  predicate Gives(item: Option<(Key, string)>, k: Key) {
    item.Some? && item.value.0 == k
  }

  /** The last well-formed item for a key decides its version. */
  function LastValue(items: Parsed, k: Key): string {
    if items == [] then ""
    else if Gives(items[|items| - 1], k) then items[|items| - 1].value.1
    else LastValue(items[..|items| - 1], k)
  }

  ghost predicate IsLast(items: Parsed, k: Key, i: nat) {
    i < |items| && Gives(items[i], k) && forall j :: i < j < |items| ==> !Gives(items[j], k)
  }

  /** What "last" means, without reference to how it is found. */
  lemma {:induction false} LastValueIsLast(items: Parsed, k: Key, i: nat)
    requires IsLast(items, k, i)
    ensures LastValue(items, k) == items[i].value.1
  {
    if i < |items| - 1 {
      LastValueIsLast(items[..|items| - 1], k, i);
    }
  }

  lemma {:induction false} LastValueAbsent(items: Parsed, k: Key)
    requires forall i :: 0 <= i < |items| ==> !Gives(items[i], k)
    ensures LastValue(items, k) == ""
  {
    if items != [] {
      LastValueAbsent(items[..|items| - 1], k);
    }
  }

  /** `parseVersions`, from the map whose four versions are empty. It fails, naming
      a key without version, unless the last well-formed item of each of the four
      keys has a non-empty version. */
  method ParseVersions(versions: string) returns (params: Record, missing: Option<Key>)
    ensures forall k :: params.Get(k) == LastValue(Items(versions), k)
    ensures missing == None <==> AllSet(params)
    ensures missing.Some? ==> params.Get(missing.value) == ""
  {
    var parts := Split(versions, ',');
    params := EMPTY;
    ghost var items := Items(versions);
    for i := 0 to |parts|
      invariant forall k :: params.Get(k) == LastValue(items[..i], k)
    {
      assert items[..i + 1][..i] == items[..i];
      var item := Split(TrimSpace(parts[i]), '=');
      if |item| != 2 { continue; }
      var key := KeyOf(TrimSpace(item[0]));
      if key == None { continue; }
      params := params.Set(key.value, TrimSpace(item[1]));
    }
    assert items[..|parts|] == items;
    missing := FirstMissing(params);
  }

  method FirstMissing(params: Record) returns (missing: Option<Key>)
    ensures missing == None <==> AllSet(params)
    ensures missing.Some? ==> params.Get(missing.value) == ""
  {
    for i := 0 to |KEYS|
      invariant forall j :: 0 <= j < i ==> params.Get(KEYS[j]) != ""
    {
      if params.Get(KEYS[i]) == "" { return Some(KEYS[i]); }
    }
    missing := None;
    assert KEYS[0] == Kernel && KEYS[1] == Initrd && KEYS[2] == Rootfs && KEYS[3] == Data;
  }

  // ------------------------------------------------------------ what an item is

  /** `text` is `a=b` with no other equals sign. */
  predicate IsPair(text: string, a: string, b: string) {
    text == a + ['='] + b && '=' !in a && '=' !in b
  }

  predicate Names(k: Key, name: string) {
    || (k == Kernel && name == "kernel") || (k == Initrd && name == "initrd")
    || (k == Rootfs && name == "rootfs") || (k == Data && name == "data")
  }

  lemma KeyOfExactly(name: string, k: Key)
    ensures KeyOf(name) == Some(k) <==> Names(k, name)
  {
    assert "kernel"[0] == 'k' && "initrd"[0] == 'i' && "rootfs"[0] == 'r' && "data"[0] == 'd';
  }

  lemma PairParts(text: string, a: string, b: string)
    requires IsPair(text, a, b)
    ensures Split(text, '=') == [a, b]
  {
    SplitHead(a, '=', b);
  }

  lemma PartsPair(text: string)
    requires |Split(text, '=')| == 2
    ensures IsPair(text, Split(text, '=')[0], Split(text, '=')[1])
  {
    var i := IndexOf(text, '=');
    var rest := text[i + 1..];
    assert text == text[..i] + ['='] + rest;
    SplitAtLeast(rest);
  }

  lemma {:induction false} SplitAtLeast(s: string)
    ensures |Split(s, '=')| >= if '=' in s then 2 else 1
    decreases |s|
  {
    if '=' in s {
      SplitAtLeast(s[IndexOf(s, '=') + 1..]);
    }
  }

  /** An item sets key `k` to `v` exactly when it is, up to white space around it,
      around the name and around the version, the name of `k`, one equals sign, `v`. */
  lemma ItemExactly(text: string, k: Key, v: string)
    ensures Item(text) == Some((k, v)) <==>
            exists a, b :: IsPair(TrimSpace(text), a, b) && Names(k, TrimSpace(a)) && TrimSpace(b) == v
  {
    var t := TrimSpace(text);
    if |Split(t, '=')| == 2 {
      PartsPair(t);
      KeyOfExactly(TrimSpace(Split(t, '=')[0]), k);
    }
    forall a, b | IsPair(t, a, b) ensures Split(t, '=') == [a, b] {
      PairParts(t, a, b);
    }
  }

  /** An item of another shape, or with another name, changes nothing. */
  lemma OtherItem(items: Parsed, text: string, k: Key)
    requires forall a, b :: IsPair(TrimSpace(text), a, b) ==>
                              TrimSpace(a) !in {"kernel", "initrd", "rootfs", "data"}
    ensures LastValue(items + [Item(text)], k) == LastValue(items, k)
  {
    var item := Item(text);
    if item.Some? {
      ItemExactly(text, item.value.0, item.value.1);
    }
    assert (items + [item])[..|items|] == items;
  }

  // ------------------------------------------------------ printing and parsing

  /** White space around the key and the version of one printed item. */
  datatype Entry = Entry(key: Key, pads: seq<string>)

  predicate Mentions(es: seq<Entry>, k: Key) { exists i :: 0 <= i < |es| && es[i].key == k }

  predicate WellPadded(e: Entry) {
    |e.pads| == 4 && forall i :: 0 <= i < 4 ==> AllSpace(e.pads[i])
  }

  function PrintItem(e: Entry, r: Record): string
    requires WellPadded(e)
  {
    e.pads[0] + Name(e.key) + e.pads[1] + "=" + e.pads[2] + r.Get(e.key) + e.pads[3]
  }

  function PrintItems(es: seq<Entry>, r: Record): seq<string>
    requires forall i :: 0 <= i < |es| ==> WellPadded(es[i])
  {
    seq(|es|, i requires 0 <= i < |es| => PrintItem(es[i], r))
  }

  /** Versions that survive the flag's syntax. */
  predicate Printable(r: Record) {
    AllSet(r) && forall k: Key :: Trimmed(r.Get(k)) && ',' !in r.Get(k) && '=' !in r.Get(k)
  }

  lemma NameFacts(k: Key)
    ensures Name(k) != [] && Trimmed(Name(k)) && '=' !in Name(k) && ',' !in Name(k)
    ensures KeyOf(Name(k)) == Some(k)
  {
  }

  lemma ItemOfPrinted(e: Entry, r: Record)
    requires WellPadded(e) && Printable(r)
    ensures Item(PrintItem(e, r)) == Some((e.key, r.Get(e.key))) && ',' !in PrintItem(e, r)
  {
    var name, v := Name(e.key), r.Get(e.key);
    NameFacts(e.key);
    PaddedPair(e.pads[0], name, e.pads[1], e.pads[2], v, e.pads[3]);
    assert PrintItem(e, r) == e.pads[0] + (name + e.pads[1] + ['='] + (e.pads[2] + v)) + e.pads[3];
  }

  lemma PaddedPair(a: string, name: string, b: string, c: string, v: string, d: string)
    requires AllSpace(a) && AllSpace(b) && AllSpace(c) && AllSpace(d)
    requires name != [] && Trimmed(name) && '=' !in name && v != [] && Trimmed(v) && '=' !in v
    ensures var parts := Split(TrimSpace(a + (name + b + ['='] + (c + v)) + d), '=');
            |parts| == 2 && TrimSpace(parts[0]) == name && TrimSpace(parts[1]) == v
  {
    var inner := name + b + ['='] + (c + v);
    InnerTrimmed(name, b + ['='] + c, v);
    assert inner == name + (b + ['='] + c) + v;
    TrimPadded(a, inner, d);
    NotInPadded(name, b);
    NotInPadded(v, c);
    SplitHead(name + b, '=', c + v);
    TrimPaddedRight(name, b);
    TrimPaddedLeft(c, v);
  }

  lemma InnerTrimmed(name: string, mid: string, v: string)
    requires name != [] && Trimmed(name) && v != [] && Trimmed(v)
    ensures Trimmed(name + mid + v)
  {
    var s := name + mid + v;
    assert s[0] == name[0] && s[|s| - 1] == v[|v| - 1];
  }

  lemma NotInPadded(s: string, pad: string)
    requires '=' !in s && AllSpace(pad)
    ensures '=' !in s + pad && '=' !in pad + s
  {
    assert !IsSpace('=');
  }

  function Given(es: seq<Entry>, r: Record): Parsed {
    seq(|es|, i requires 0 <= i < |es| => Some((es[i].key, r.Get(es[i].key))))
  }

  lemma {:induction false} LastOfGiven(es: seq<Entry>, r: Record, k: Key)
    requires Mentions(es, k)
    ensures LastValue(Given(es, r), k) == r.Get(k)
  {
    var prev := es[..|es| - 1];
    assert Given(es, r)[..|es| - 1] == Given(prev, r);
    if es[|es| - 1].key != k {
      var i :| 0 <= i < |es| && es[i].key == k;
      assert prev[i].key == k;
      LastOfGiven(prev, r, k);
    }
  }

  /** Parsing inverts printing, for any order of the keys, any repetition and any
      white space around keys, versions and items. */
  lemma ParsePrinted(es: seq<Entry>, r: Record, k: Key)
    requires Printable(r) && forall i :: 0 <= i < |es| ==> WellPadded(es[i])
    requires Mentions(es, k)
    ensures LastValue(Items(Join(PrintItems(es, r), ',')), k) == r.Get(k)
  {
    forall i | 0 <= i < |es|
      ensures ',' !in PrintItems(es, r)[i] && Item(PrintItems(es, r)[i]) == Given(es, r)[i]
    {
      ItemOfPrinted(es[i], r);
    }
    SplitJoin(PrintItems(es, r), ',');
    assert Items(Join(PrintItems(es, r), ',')) == Given(es, r);
    LastOfGiven(es, r, k);
  }

  /** So `parseVersions` on a printed text that names all four keys succeeds with the
      versions that were printed. */
  method PrintThenParse(es: seq<Entry>, r: Record) returns (params: Record, missing: Option<Key>)
    requires Printable(r) && forall i :: 0 <= i < |es| ==> WellPadded(es[i])
    requires forall k: Key :: Mentions(es, k)
    ensures params == r && missing == None
  {
    params, missing := ParseVersions(Join(PrintItems(es, r), ','));
    forall k ensures params.Get(k) == r.Get(k) {
      ParsePrinted(es, r, k);
    }
    SameRecord(params, r);
  }
}
