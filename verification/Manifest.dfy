/** The indentation reader for scenario manifests (crates/asmodeus-dsl/src/manifest.rs): nested `key: value`
    maps, one line each. Entries keep the order of their lines; a scalar keeps its trimmed text, and how
    that text reads as a number or a boolean is not modelled. */
module Manifest {
  import opened Wrappers
  import opened Text

  datatype Line = Line(indent: nat, text: string)

  datatype Value = Null | Scalar(text: string) | Object(entries: seq<Entry>)

  datatype Entry = Entry(key: string, value: Value)

  datatype ParseError = EmptyInput | UnexpectedIndentation(line: string) | ExpectedPair(line: string) | DuplicateKey(key: string)

  // ----- significant lines -----

  predicate Significant(raw: string) {
    Trim(raw) != "" && Trim(raw)[0] != '#'
  }

  /** Indentation is counted in bytes. */
  function LineOf(raw: string): Line {
    Line(Utf8Length(raw[..|raw| - |TrimStart(raw)|]), Trim(raw))
  }

  function LinesOf(raws: seq<string>): seq<Line> {
    if raws == [] then []
    else (if Significant(raws[0]) then [LineOf(raws[0])] else []) + LinesOf(raws[1..])
  }

  /** A line counts exactly if its first character that is no white space exists and is no '#'; it is then kept
      without the white space around it, and its indentation is the length of what precedes it. */
  lemma LineIsExactly(raw: string) returns (lo: nat)
    ensures Unpadded(raw, lo, LineOf(raw).text) && LineOf(raw).indent == Utf8Length(raw[..lo])
    ensures Significant(raw) <==>
              exists k | 0 <= k < |raw| :: !White(raw[k]) && raw[k] != '#' && forall i | 0 <= i < k :: White(raw[i])
  {
    hide White, TrimStart, Trim;
    TrimIs(raw);
    lo := |raw| - |TrimStart(raw)|;
    FirstShown(raw, lo, Trim(raw));
  }

  lemma FirstShown(raw: string, lo: nat, text: string)
    requires Unpadded(raw, lo, text)
    ensures (text != "" && text[0] != '#') <==>
              exists k | 0 <= k < |raw| :: !White(raw[k]) && raw[k] != '#' && forall i | 0 <= i < k :: White(raw[i])
  {
    hide White;
    if text != "" {
      assert raw[lo] == text[0];
      assert !White(raw[lo]);
    } else {
      assert forall i | 0 <= i < |raw| :: White(raw[i]);
    }
  }

  // ----- the reader as a function of the line index -----

  datatype Reading = Parsed(entries: seq<Entry>, next: nat) | Failed(error: ParseError)

  predicate HasKey(entries: seq<Entry>, key: string) {
    exists i | 0 <= i < |entries| :: entries[i].key == key
  }

  function Key(text: string): string
    requires SplitOnce(text, ':').Some?
  {
    Trim(SplitOnce(text, ':').value.0)
  }

  /** The text after the first colon; empty if the line opens a block or stands for null. */
  function Rest(text: string): string
    requires SplitOnce(text, ':').Some?
  {
    Trim(SplitOnce(text, ':').value.1)
  }

  /** A pair is split at its first colon, and white space around key and rest is dropped. */
  lemma PairIsExactly(text: string) returns (k: nat, a: nat, b: nat)
    requires SplitOnce(text, ':').Some?
    ensures k < |text| && text[k] == ':' && ':' !in text[..k]
    ensures Unpadded(text[..k], a, Key(text)) && Unpadded(text[k + 1..], b, Rest(text))
  {
    hide Unpadded, Trim, TrimStart, SplitOnce;
    SplitOnceParts(text, ':');
    var (before, behind) := SplitOnce(text, ':').value;
    k := |before|;
    assert text[..k] == before && text[k + 1..] == behind;
    a, b := |before| - |TrimStart(before)|, |behind| - |TrimStart(behind)|;
    TrimIs(before);
    TrimIs(behind);
  }

  predicate OpensBlock(lines: seq<Line>, idx: nat, indent: nat)
    requires idx < |lines|
  {
    idx + 1 < |lines| && lines[idx + 1].indent > indent
  }

  /** Reads the entries of one block from line `idx` on, behind those already read. */
  function Read(lines: seq<Line>, idx: nat, indent: nat, acc: seq<Entry>): (r: Reading)
    requires idx <= |lines|
    ensures r.Parsed? ==> idx <= r.next <= |lines|
    decreases |lines| - idx
  {
    if idx == |lines| || lines[idx].indent < indent then Parsed(acc, idx)
    else if lines[idx].indent > indent then Failed(UnexpectedIndentation(lines[idx].text))
    else if SplitOnce(lines[idx].text, ':').None? then Failed(ExpectedPair(lines[idx].text))
    else
      var text := lines[idx].text;
      if Rest(text) == "" && OpensBlock(lines, idx, indent) then
        match Read(lines, idx + 1, lines[idx + 1].indent, [])
        case Failed(e) => Failed(e)
        case Parsed(children, next) =>
          if HasKey(acc, Key(text)) then Failed(DuplicateKey(Key(text)))
          else Read(lines, next, indent, acc + [Entry(Key(text), Object(children))])
      else if HasKey(acc, Key(text)) then Failed(DuplicateKey(Key(text)))
      else Read(lines, idx + 1, indent, acc + [Entry(Key(text), if Rest(text) == "" then Null else Scalar(Rest(text)))])
  }

  /** `parse_yaml_map`: one loop per block, an index shared with the blocks inside. */
  method ParseYamlMap(lines: seq<Line>, start: nat, indent: nat) returns (r: Result<seq<Entry>, ParseError>, idx: nat)
    requires start <= |lines|
    ensures idx <= |lines|
    ensures r == match Read(lines, start, indent, []) case Parsed(entries, _) => Ok(entries) case Failed(e) => Err(e)
    ensures r.Ok? ==> start <= idx == Read(lines, start, indent, []).next
    decreases |lines| - start
  {
    hide SplitOnce, Trim;
    var map_: seq<Entry> := [];
    idx := start;
    while idx < |lines|
      invariant start <= idx <= |lines|
      invariant Read(lines, start, indent, []) == Read(lines, idx, indent, map_)
      decreases |lines| - idx
    {
      var line := lines[idx];
      if line.indent < indent { break; }
      if line.indent > indent { return Err(UnexpectedIndentation(line.text)), idx; }
      var pair := SplitOnce(line.text, ':');
      if pair.None? { return Err(ExpectedPair(line.text)), idx; }
      var key, val := Trim(pair.value.0), Trim(pair.value.1);
      idx := idx + 1;
      var value: Value;
      if val == "" {
        if idx < |lines| && lines[idx].indent > line.indent {
          var child, next := ParseYamlMap(lines, idx, lines[idx].indent);
          if child.Err? { return Err(child.error), next; }
          value := Object(child.value);
          idx := next;
        } else {
          value := Null;
        }
      } else {
        value := Scalar(val);
      }
      if HasKey(map_, key) { return Err(DuplicateKey(key)), idx; }
      map_ := map_ + [Entry(key, value)];
    }
    r := Ok(map_);
  }

  /** `parse_yaml_to_json_value` on the text's lines. */
  method ParseYaml(text: string) returns (r: Result<Value, ParseError>)
    ensures r == Reads(LinesOf(Split(text, '\n')))
  {
    hide Significant, LineOf, Split, Read;
    var raws := Split(text, '\n');
    var lines: seq<Line> := [];
    for i := 0 to |raws|
      invariant lines + LinesOf(raws[i..]) == LinesOf(raws)
    {
      assert raws[i..][1..] == raws[i + 1..];
      assert raws[i..][0] == raws[i];
      ghost var before := lines;
      if Significant(raws[i]) {
        lines := lines + [LineOf(raws[i])];
        assert before + ([LineOf(raws[i])] + LinesOf(raws[i + 1..])) == lines + LinesOf(raws[i + 1..]);
      }
    }
    assert raws[|raws|..] == [];
    assert lines + [] == lines;
    if lines == [] { return Err(EmptyInput); }
    var entries, _ := ParseYamlMap(lines, 0, 0);
    r := match entries case Ok(es) => Ok(Object(es)) case Err(e) => Err(e);
  }

  function Reads(lines: seq<Line>): Result<Value, ParseError> {
    if lines == [] then Err(EmptyInput)
    else
      match Read(lines, 0, 0, [])
      case Parsed(entries, _) => Ok(Object(entries))
      case Failed(e) => Err(e)
  }

  // ----- what an error means -----

  ghost predicate Named(lines: seq<Line>, text: string, i: nat) { i < |lines| && lines[i].text == text }

  /** The pair on line i, at this indentation, has this key. */
  ghost predicate KeyedAt(lines: seq<Line>, i: nat, indent: nat, key: string) {
    i < |lines| && lines[i].indent == indent && IsPair(lines[i].text) && Key(lines[i].text) == key
  }

  /** Line i is deeper than a line before it, or indented although it is the first. */
  ghost predicate TooDeep(lines: seq<Line>, i: nat) {
    i < |lines| && if i == 0 then lines[0].indent > 0 else exists j | 0 <= j < i :: lines[j].indent < lines[i].indent
  }

  /** What the error says is so: the text is that of a line out of place or of a line without a colon, the key stands
      twice at one indentation, or there is no line at all. */
  ghost predicate Explains(lines: seq<Line>, e: ParseError) {
    match e
    case EmptyInput => lines == []
    case UnexpectedIndentation(text) => exists i :: Named(lines, text, i) && TooDeep(lines, i)
    case ExpectedPair(text) => ':' !in text && exists i :: Named(lines, text, i)
    case DuplicateKey(key) => exists i, j, indent :: i < j && KeyedAt(lines, i, indent, key) && KeyedAt(lines, j, indent, key)
  }

  /** A line of the block has this key. */
  ghost predicate Source(lines: seq<Line>, start: nat, idx: nat, indent: nat, key: string) {
    exists i: nat :: start <= i < idx && KeyedAt(lines, i, indent, key)
  }

  /** Every entry comes from a line of its own block. */
  ghost predicate Sourced(lines: seq<Line>, start: nat, idx: nat, indent: nat, acc: seq<Entry>) {
    forall n | 0 <= n < |acc| :: Source(lines, start, idx, indent, acc[n].key)
  }

  lemma {:induction false} NoColon(s: string, sep: char)
    requires SplitOnce(s, sep).None?
    ensures sep !in s
  {
    if s != [] { NoColon(s[1..], sep); }
  }

  lemma SourceGrows(lines: seq<Line>, start: nat, idx: nat, next: nat, indent: nat, key: string)
    requires Source(lines, start, idx, indent, key) && idx <= next
    ensures Source(lines, start, next, indent, key)
  {
    hide KeyedAt;
  }

  lemma SourcedGrows(lines: seq<Line>, start: nat, idx: nat, next: nat, indent: nat, acc: seq<Entry>, e: Entry)
    requires Sourced(lines, start, idx, indent, acc) && start <= idx < next && KeyedAt(lines, idx, indent, e.key)
    ensures Sourced(lines, start, next, indent, acc + [e])
  {
    hide KeyedAt;
    assert Source(lines, start, next, indent, e.key);
    hide Source;
    forall n | 0 <= n < |acc| ensures Source(lines, start, next, indent, acc[n].key) {
      SourceGrows(lines, start, idx, next, indent, acc[n].key);
    }
  }

  lemma TwiceExplains(lines: seq<Line>, start: nat, idx: nat, indent: nat, acc: seq<Entry>, key: string)
    requires Sourced(lines, start, idx, indent, acc) && KeyedAt(lines, idx, indent, key) && HasKey(acc, key)
    ensures Explains(lines, DuplicateKey(key))
  {
    hide KeyedAt;
    var n :| 0 <= n < |acc| && acc[n].key == key;
    assert Source(lines, start, idx, indent, key);
  }

  lemma DeepExplains(lines: seq<Line>, start: nat, idx: nat, indent: nat)
    requires start <= idx < |lines| && lines[idx].indent > indent
    requires if idx > start then lines[start].indent == indent else start == 0 && indent == 0
    ensures Explains(lines, UnexpectedIndentation(lines[idx].text))
  {
    assert Named(lines, lines[idx].text, idx) && TooDeep(lines, idx);
  }

  lemma {:induction false} ReadExplains(lines: seq<Line>, start: nat, idx: nat, indent: nat, acc: seq<Entry>)
    requires start <= idx <= |lines| && Read(lines, idx, indent, acc).Failed? && Sourced(lines, start, idx, indent, acc)
    requires if idx > start then lines[start].indent == indent else idx < |lines| && (lines[idx].indent == indent || (start == 0 && indent == 0))
    ensures Explains(lines, Read(lines, idx, indent, acc).error)
    decreases |lines| - idx
  {
    hide SplitOnce, Trim, HasKey, Explains, Sourced, KeyedAt;
    var text := lines[idx].text;
    if lines[idx].indent > indent {
      DeepExplains(lines, start, idx, indent);
    } else if SplitOnce(text, ':').None? {
      NoColon(text, ':');
      PairlessExplains(lines, idx);
    } else {
      assert KeyedAt(lines, idx, indent, Key(text)) by { KeyedHere(lines, idx); }
      var next, value := idx + 1, if Rest(text) == "" then Null else Scalar(Rest(text));
      if Rest(text) == "" && OpensBlock(lines, idx, indent) {
        match Read(lines, idx + 1, lines[idx + 1].indent, [])
        case Failed(e) =>
          NoneSourced(lines, idx + 1, lines[idx + 1].indent);
          ReadExplains(lines, idx + 1, idx + 1, lines[idx + 1].indent, []);
          return;
        case Parsed(children, after) => next, value := after, Object(children);
      }
      if HasKey(acc, Key(text)) { TwiceExplains(lines, start, idx, indent, acc, Key(text)); }
      else {
        SourcedGrows(lines, start, idx, next, indent, acc, Entry(Key(text), value));
        ReadExplains(lines, start, next, indent, acc + [Entry(Key(text), value)]);
      }
    }
  }

  lemma KeyedHere(lines: seq<Line>, idx: nat)
    requires idx < |lines| && IsPair(lines[idx].text)
    ensures KeyedAt(lines, idx, lines[idx].indent, Key(lines[idx].text))
  {
  }

  lemma NoneSourced(lines: seq<Line>, start: nat, indent: nat)
    ensures Sourced(lines, start, start, indent, [])
  {
  }

  lemma PairlessExplains(lines: seq<Line>, idx: nat)
    requires idx < |lines| && ':' !in lines[idx].text
    ensures Explains(lines, ExpectedPair(lines[idx].text))
  {
    assert Named(lines, lines[idx].text, idx);
  }

  /** Whenever the reader refuses, its error is true of the lines. */
  lemma ErrorsAreTrue(lines: seq<Line>)
    ensures Reads(lines).Err? ==> Explains(lines, Reads(lines).error)
  {
    hide Read, Explains;
    if lines == [] { assert Explains(lines, EmptyInput) by { NothingExplains(lines); } }
    else if Read(lines, 0, 0, []).Failed? {
      NoneSourced(lines, 0, 0);
      ReadExplains(lines, 0, 0, 0, []);
    }
  }

  lemma NothingExplains(lines: seq<Line>)
    requires lines == []
    ensures Explains(lines, EmptyInput)
  {
  }

  // ----- layouts: the reference -----

  /** A line with the lines nested below it; `childIndent` is theirs. */
  datatype Item = Item(text: string, childIndent: nat, children: seq<Item>)

  /** All lines of a layout, top to bottom: each item's line directly before the lines below it. */
  function Flatten(items: seq<Item>, indent: nat): seq<Line>
    decreases items
  {
    if items == [] then []
    else [Line(indent, items[0].text)] + (Flatten(items[0].children, items[0].childIndent) + Flatten(items[1..], indent))
  }

  predicate IsPair(text: string) { SplitOnce(text, ':').Some? }

  function ItemKey(item: Item): string {
    if IsPair(item.text) then Key(item.text) else ""
  }

  /** Every line is a pair, only a line without a value has lines below it, deeper than itself, and no two
      siblings share a key. */
  predicate WellFormed(items: seq<Item>, indent: nat)
    decreases items
  {
    && (forall i, j | 0 <= i < j < |items| :: ItemKey(items[i]) != ItemKey(items[j]))
    && AllWellFormed(items, indent)
  }

  predicate AllWellFormed(items: seq<Item>, indent: nat)
    decreases items, 0
  {
    items == [] || (GoodItem(items[0], indent) && AllWellFormed(items[1..], indent))
  }

  predicate GoodItem(item: Item, indent: nat)
    decreases item, 1
  {
    && IsPair(item.text)
    && (item.children != [] ==> Rest(item.text) == "" && item.childIndent > indent && WellFormed(item.children, item.childIndent))
  }

  function ItemValue(item: Item): Value
    requires IsPair(item.text)
    decreases item, 1
  {
    if Rest(item.text) != "" then Scalar(Rest(item.text))
    else if item.children == [] then Null
    else Object(EntriesOf(item.children))
  }

  function EntriesOf(items: seq<Item>): seq<Entry>
    decreases items, 0
  {
    if items == [] then []
    else [Entry(ItemKey(items[0]), if IsPair(items[0].text) then ItemValue(items[0]) else Null)] + EntriesOf(items[1..])
  }

  // ----- the reader against the reference -----

  /** The siblings' keys differ from each other and from those already read. */
  predicate FreshKeys(items: seq<Item>, acc: seq<Entry>) {
    && (forall i, j | 0 <= i < j < |items| :: ItemKey(items[i]) != ItemKey(items[j]))
    && (forall i | 0 <= i < |items| :: !HasKey(acc, ItemKey(items[i])))
  }

  lemma HasKeyGrows(acc: seq<Entry>, e: Entry, key: string)
    ensures HasKey(acc + [e], key) <==> HasKey(acc, key) || e.key == key
  {
    assert (acc + [e])[|acc|] == e;
    if i :| 0 <= i < |acc| && acc[i].key == key { assert (acc + [e])[i].key == key; }
  }

  lemma FreshCons(item: Item, rest: seq<Item>, acc: seq<Entry>, value: Value)
    requires !HasKey(acc, ItemKey(item)) && FreshKeys(rest, acc + [Entry(ItemKey(item), value)])
    ensures FreshKeys([item] + rest, acc)
  {
    hide ItemKey, HasKey;
    var e := Entry(ItemKey(item), value);
    forall i | 0 <= i < |rest| ensures ItemKey(rest[i]) != ItemKey(item) && !HasKey(acc, ItemKey(rest[i])) {
      HasKeyGrows(acc, e, ItemKey(rest[i]));
    }
    var all := [item] + rest;
    forall i, j | 0 <= i < j < |all| ensures ItemKey(all[i]) != ItemKey(all[j]) {
      assert all[j] == rest[j - 1];
      if i > 0 { assert all[i] == rest[i - 1]; }
    }
    forall i | 0 <= i < |all| ensures !HasKey(acc, ItemKey(all[i])) { if i > 0 { assert all[i] == rest[i - 1]; } }
  }

  lemma FreshTail(items: seq<Item>, acc: seq<Entry>, value: Value)
    requires items != [] && FreshKeys(items, acc)
    ensures !HasKey(acc, ItemKey(items[0])) && FreshKeys(items[1..], acc + [Entry(ItemKey(items[0]), value)])
  {
    hide ItemKey, HasKey;
    forall i | 0 <= i < |items[1..]|
      ensures !HasKey(acc + [Entry(ItemKey(items[0]), value)], ItemKey(items[1..][i]))
    {
      HasKeyGrows(acc, Entry(ItemKey(items[0]), value), ItemKey(items[i + 1]));
    }
  }

  /** The lines from idx to next are this layout, and the block ends there. */
  predicate Lays(lines: seq<Line>, idx: nat, next: nat, items: seq<Item>, indent: nat) {
    && idx <= next <= |lines| && lines[idx..next] == Flatten(items, indent)
    && (next == |lines| || lines[next].indent < indent)
  }

  lemma LaysCons(lines: seq<Line>, idx: nat, middle: nat, next: nat, item: Item, rest: seq<Item>, indent: nat)
    requires idx < |lines| && lines[idx] == Line(indent, item.text)
    requires idx + 1 <= middle <= |lines| && lines[idx + 1..middle] == Flatten(item.children, item.childIndent)
    requires Lays(lines, middle, next, rest, indent)
    ensures Lays(lines, idx, next, [item] + rest, indent)
  {
    assert ([item] + rest)[1..] == rest;
    Joined(lines, idx, middle, next);
  }

  lemma Joined(lines: seq<Line>, idx: nat, middle: nat, next: nat)
    requires idx < middle <= next <= |lines|
    ensures lines[idx..next] == [lines[idx]] + (lines[idx + 1..middle] + lines[middle..next])
  {
    assert lines[idx + 1..next] == lines[idx + 1..middle] + lines[middle..next];
    assert lines[idx..next] == [lines[idx]] + lines[idx + 1..next];
  }

  lemma AcceptedStep(lines: seq<Line>, idx: nat, middle: nat, next: nat, item: Item, rest: seq<Item>, indent: nat, acc: seq<Entry>)
    requires idx < |lines| && lines[idx] == Line(indent, item.text) && IsPair(item.text) && GoodItem(item, indent)
    requires idx + 1 <= middle <= |lines| && lines[idx + 1..middle] == Flatten(item.children, item.childIndent)
    requires Lays(lines, middle, next, rest, indent) && AllWellFormed(rest, indent) && !HasKey(acc, Key(item.text))
    requires FreshKeys(rest, acc + [Entry(Key(item.text), ItemValue(item))])
    ensures Lays(lines, idx, next, [item] + rest, indent) && AllWellFormed([item] + rest, indent) && FreshKeys([item] + rest, acc)
    ensures acc + EntriesOf([item] + rest) == (acc + [Entry(Key(item.text), ItemValue(item))]) + EntriesOf(rest)
  {
    hide SplitOnce, Trim, HasKey, Lays, FreshKeys, Flatten, GoodItem, ItemValue;
    LaysCons(lines, idx, middle, next, item, rest, indent);
    FreshCons(item, rest, acc, ItemValue(item));
    assert ([item] + rest)[1..] == rest;
  }

  /** The line at idx opens a block. */
  predicate Opens(lines: seq<Line>, idx: nat, indent: nat)
    requires idx < |lines|
  {
    IsPair(lines[idx].text) && Rest(lines[idx].text) == "" && OpensBlock(lines, idx, indent)
  }

  /** Whatever the reader accepts is the flattening of a well-formed layout, line for line, and what it
      returns are that layout's entries. */
  lemma {:induction false} AcceptedIsLayout(lines: seq<Line>, idx: nat, indent: nat, acc: seq<Entry>) returns (items: seq<Item>)
    requires idx <= |lines| && Read(lines, idx, indent, acc).Parsed?
    ensures Lays(lines, idx, Read(lines, idx, indent, acc).next, items, indent)
    ensures AllWellFormed(items, indent) && FreshKeys(items, acc)
    ensures Read(lines, idx, indent, acc).entries == acc + EntriesOf(items)
    decreases |lines| - idx
  {
    hide SplitOnce, Trim, HasKey, FreshKeys, GoodItem, ItemValue, Lays;
    if idx == |lines| || lines[idx].indent < indent {
      items := [];
      NothingLaid(lines, idx, indent, acc);
    } else {
      var item, middle := AcceptedLine(lines, idx, indent, acc);
      var e := Entry(Key(item.text), ItemValue(item));
      var rest := AcceptedIsLayout(lines, middle, indent, acc + [e]);
      items := [item] + rest;
      AcceptedStep(lines, idx, middle, Read(lines, middle, indent, acc + [e]).next, item, rest, indent, acc);
    }
  }

  lemma NothingLaid(lines: seq<Line>, idx: nat, indent: nat, acc: seq<Entry>)
    requires idx <= |lines| && (idx == |lines| || lines[idx].indent < indent)
    ensures Lays(lines, idx, idx, [], indent) && FreshKeys([], acc) && acc + EntriesOf([]) == acc
  {
    assert lines[idx..idx] == [];
  }

  /** The first line of a block with what it opens. */
  lemma AcceptedLine(lines: seq<Line>, idx: nat, indent: nat, acc: seq<Entry>) returns (item: Item, middle: nat)
    requires idx < |lines| && lines[idx].indent >= indent && Read(lines, idx, indent, acc).Parsed?
    ensures lines[idx] == Line(indent, item.text) && IsPair(item.text) && GoodItem(item, indent) && !HasKey(acc, Key(item.text))
    ensures idx + 1 <= middle <= |lines| && lines[idx + 1..middle] == Flatten(item.children, item.childIndent)
    ensures Read(lines, idx, indent, acc) == Read(lines, middle, indent, acc + [Entry(Key(item.text), ItemValue(item))])
    decreases |lines| - idx, 0
  {
    hide SplitOnce, Trim, HasKey, FreshKeys, GoodItem, ItemValue, Flatten, AllWellFormed;
    var text := lines[idx].text;
    if Opens(lines, idx, indent) {
      var childIndent := lines[idx + 1].indent;
      var inner := Read(lines, idx + 1, childIndent, []);
      var children := AcceptedIsLayout(lines, idx + 1, childIndent, []);
      item, middle := Item(text, childIndent, children), inner.next;
      LaidNonempty(lines, idx + 1, middle, children, childIndent);
      AcceptedItem(item, indent, inner, true);
    } else {
      item, middle := Item(text, 0, []), idx + 1;
      AcceptedItem(item, indent, Parsed([], 0), false);
      NoLines(lines, idx + 1);
    }
  }

  lemma NoLines(lines: seq<Line>, idx: nat)
    requires idx <= |lines|
    ensures lines[idx..idx] == Flatten([], 0)
  {
  }

  lemma LaidNonempty(lines: seq<Line>, idx: nat, next: nat, items: seq<Item>, indent: nat)
    requires Lays(lines, idx, next, items, indent) && idx < |lines| && lines[idx].indent == indent
    ensures items != []
  {
  }

  lemma AcceptedItem(item: Item, indent: nat, inner: Reading, block: bool)
    requires IsPair(item.text)
    requires block ==> inner.Parsed? && inner.entries == [] + EntriesOf(item.children) && item.children != [] && Rest(item.text) == ""
                       && item.childIndent > indent && AllWellFormed(item.children, item.childIndent) && FreshKeys(item.children, [])
    requires !block ==> item.children == []
    ensures GoodItem(item, indent)
    ensures ItemValue(item) == if block then Object(inner.entries) else if Rest(item.text) == "" then Null else Scalar(Rest(item.text))
  {
    hide SplitOnce, Trim, HasKey;
    assert [] + EntriesOf(item.children) == EntriesOf(item.children);
  }

  // ----- completeness and the exact statement -----

  /** A layout is laid out in the lines from idx on, and the block ends behind it. */
  predicate LaidAt(lines: seq<Line>, idx: nat, items: seq<Item>, indent: nat) {
    idx + |Flatten(items, indent)| <= |lines| && Lays(lines, idx, idx + |Flatten(items, indent)|, items, indent)
  }

  lemma FlattenCons(items: seq<Item>, indent: nat)
    requires items != []
    ensures Flatten(items, indent) ==
            [Line(indent, items[0].text)] + (Flatten(items[0].children, items[0].childIndent) + Flatten(items[1..], indent))
  {
  }

  lemma Slices(lines: seq<Line>, idx: nat, end: nat, head: Line, below: seq<Line>, rest: seq<Line>)
    requires idx <= end <= |lines| && lines[idx..end] == [head] + (below + rest)
    ensures idx + 1 + |below| + |rest| == end && lines[idx] == head
    ensures lines[idx + 1..idx + 1 + |below|] == below && lines[idx + 1 + |below|..end] == rest
  {
    var all := [head] + (below + rest);
    assert |all| == end - idx;
    assert lines[idx..end][0] == lines[idx];
    assert all[1..1 + |below|] == below && all[1 + |below|..] == rest;
    forall i | 0 <= i < |below| ensures lines[idx + 1..idx + 1 + |below|][i] == below[i] {
      assert lines[idx..end][1 + i] == all[1 + i];
    }
    forall i | 0 <= i < |rest| ensures lines[idx + 1 + |below|..end][i] == rest[i] {
      assert lines[idx..end][1 + |below| + i] == all[1 + |below| + i];
    }
  }

  lemma GoodChildren(item: Item, indent: nat)
    requires GoodItem(item, indent) && item.children != []
    ensures Rest(item.text) == "" && item.childIndent > indent && AllWellFormed(item.children, item.childIndent)
    ensures FreshKeys(item.children, [])
  {
    hide SplitOnce, Trim, ItemKey;
  }

  /** The line after a laid-out layout and everything below its first item. */
  function Below(items: seq<Item>): nat
    requires items != []
  {
    |Flatten(items[0].children, items[0].childIndent)|
  }

  lemma LaidSlices(lines: seq<Line>, idx: nat, items: seq<Item>, indent: nat)
    requires items != [] && LaidAt(lines, idx, items, indent)
    ensures var n, end := Below(items), idx + |Flatten(items, indent)|;
            && idx + 1 + n + |Flatten(items[1..], indent)| == end <= |lines| && lines[idx] == Line(indent, items[0].text)
            && lines[idx + 1..idx + 1 + n] == Flatten(items[0].children, items[0].childIndent)
            && lines[idx + 1 + n..end] == Flatten(items[1..], indent)
  {
    hide Flatten;
    FlattenCons(items, indent);
    Slices(lines, idx, idx + |Flatten(items, indent)|, Line(indent, items[0].text),
           Flatten(items[0].children, items[0].childIndent), Flatten(items[1..], indent));
  }

  lemma LaidParts(lines: seq<Line>, idx: nat, items: seq<Item>, indent: nat)
    requires items != [] && LaidAt(lines, idx, items, indent)
    requires items[0].children != [] ==> items[0].childIndent > indent
    ensures idx < |lines| && lines[idx] == Line(indent, items[0].text)
    ensures var middle := idx + 1 + Below(items);
            && middle <= |lines| && LaidAt(lines, middle, items[1..], indent)
            && middle + |Flatten(items[1..], indent)| == idx + |Flatten(items, indent)|
            && (items[0].children != [] ==> LaidAt(lines, idx + 1, items[0].children, items[0].childIndent))
            && (middle < |lines| ==> lines[middle].indent <= indent)
  {
    hide Flatten;
    LaidSlices(lines, idx, items, indent);
    var middle := idx + 1 + Below(items);
    if items[1..] != [] {
      LaidHead(lines, middle, items[1..], indent);
    } else {
      NothingFlattened(indent);
    }
  }

  lemma LaidHead(lines: seq<Line>, idx: nat, items: seq<Item>, indent: nat)
    requires items != [] && LaidAt(lines, idx, items, indent)
    ensures idx < |lines| && lines[idx].indent == indent && |Flatten(items, indent)| > 0
  {
    assert lines[idx..idx + |Flatten(items, indent)|][0] == lines[idx];
  }

  lemma GoodIsPair(item: Item, indent: nat)
    requires GoodItem(item, indent)
    ensures IsPair(item.text)
  {
  }

  /** The reader takes an item's line with everything below it as one entry. */
  lemma {:induction false} ItemIsAccepted(lines: seq<Line>, idx: nat, items: seq<Item>, indent: nat, acc: seq<Entry>)
    requires items != [] && LaidAt(lines, idx, items, indent) && GoodItem(items[0], indent) && !HasKey(acc, ItemKey(items[0]))
    requires IsPair(items[0].text)
    ensures var middle := idx + 1 + Below(items);
            && middle <= |lines|
            && Read(lines, idx, indent, acc) == Read(lines, middle, indent, acc + [Entry(Key(items[0].text), ItemValue(items[0]))])
    decreases items, 0
  {
    hide SplitOnce, Trim, HasKey, FreshKeys, LaidAt, Flatten, ItemValue, GoodItem;
    var item := items[0];
    if item.children != [] { GoodChildren(item, indent); }
    LaidParts(lines, idx, items, indent);
    if item.children != [] {
      LaidHead(lines, idx + 1, item.children, item.childIndent);
      LayoutIsAccepted(lines, idx + 1, item.children, item.childIndent, []);
      assert [] + EntriesOf(item.children) == EntriesOf(item.children);
    } else {
      NothingFlattened(item.childIndent);
    }
    ItemIs(item);
  }

  /** The reader reads every well-formed layout, and reads it as its entries. */
  lemma {:induction false} LayoutIsAccepted(lines: seq<Line>, idx: nat, items: seq<Item>, indent: nat, acc: seq<Entry>)
    requires idx <= |lines| && LaidAt(lines, idx, items, indent) && AllWellFormed(items, indent) && FreshKeys(items, acc)
    ensures Read(lines, idx, indent, acc) == Parsed(acc + EntriesOf(items), idx + |Flatten(items, indent)|)
    decreases items, 1
  {
    hide SplitOnce, Trim, HasKey, FreshKeys, LaidAt, Flatten, ItemValue, GoodItem, Read;
    if items == [] {
      NothingRead(lines, idx, indent, acc);
    } else {
      var item := items[0];
      GoodIsPair(item, indent);
      if item.children != [] { GoodChildren(item, indent); }
      LaidParts(lines, idx, items, indent);
      FreshTail(items, acc, ItemValue(item));
      ItemIsAccepted(lines, idx, items, indent, acc);
      var e := Entry(Key(item.text), ItemValue(item));
      LayoutIsAccepted(lines, idx + 1 + Below(items), items[1..], indent, acc + [e]);
      assert (acc + [e]) + EntriesOf(items[1..]) == acc + ([e] + EntriesOf(items[1..]));
    }
  }

  lemma NothingRead(lines: seq<Line>, idx: nat, indent: nat, acc: seq<Entry>)
    requires idx <= |lines| && LaidAt(lines, idx, [], indent)
    ensures Read(lines, idx, indent, acc) == Parsed(acc + EntriesOf([]), idx + |Flatten([], indent)|)
  {
    hide SplitOnce, Trim, HasKey, Rest, Key;
    NothingFlattened(indent);
    assert acc + [] == acc;
  }

  lemma NothingFlattened(indent: nat)
    ensures Flatten([], indent) == []
  {
  }

  lemma SiblingsFresh(items: seq<Item>)
    requires forall i, j | 0 <= i < j < |items| :: ItemKey(items[i]) != ItemKey(items[j])
    ensures FreshKeys(items, [])
  {
    hide ItemKey;
  }

  lemma ItemIs(item: Item)
    requires IsPair(item.text)
    ensures ItemValue(item) == if Rest(item.text) != "" then Scalar(Rest(item.text))
                               else if item.children == [] then Null else Object(EntriesOf(item.children))
  {
  }

  ghost predicate IsLayoutOf(items: seq<Item>, lines: seq<Line>) {
    Flatten(items, 0) == lines && WellFormed(items, 0)
  }

  /** Exactly which inputs the reader accepts, and what it makes of them: those whose significant lines are,
      in order and each once, the lines of a well-formed layout starting at column 0. */
  lemma ReadsExactlyLayouts(lines: seq<Line>, entries: seq<Entry>)
    ensures Reads(lines) == Ok(Object(entries)) <==>
            lines != [] && exists items :: IsLayoutOf(items, lines) && EntriesOf(items) == entries
  {
    hide Read, Flatten, AllWellFormed, EntriesOf, FreshKeys, Lays;
    if lines != [] {
      if Read(lines, 0, 0, []).Parsed? {
        var items := AcceptedIsLayout(lines, 0, 0, []);
        WholeInput(lines, Read(lines, 0, 0, []).next, items);
        assert [] + EntriesOf(items) == EntriesOf(items);
        assert IsLayoutOf(items, lines);
      }
      if items :| IsLayoutOf(items, lines) && EntriesOf(items) == entries {
        SiblingsFresh(items);
        WholeLayout(lines, items);
        LayoutIsAccepted(lines, 0, items, 0, []);
        assert [] + EntriesOf(items) == EntriesOf(items);
      }
    }
  }

  lemma WholeInput(lines: seq<Line>, next: nat, items: seq<Item>)
    requires Lays(lines, 0, next, items, 0) && AllWellFormed(items, 0) && FreshKeys(items, [])
    ensures IsLayoutOf(items, lines)
  {
    assert lines[0..|lines|] == lines;
  }

  lemma WholeLayout(lines: seq<Line>, items: seq<Item>)
    requires Flatten(items, 0) == lines
    ensures LaidAt(lines, 0, items, 0)
  {
    assert lines[0..|lines|] == lines;
  }

  /** A tree is found again whatever increasing indents it is printed with. */
  lemma PrintedTreeReadsBack(items: seq<Item>)
    requires items != [] && WellFormed(items, 0)
    ensures Reads(Flatten(items, 0)) == Ok(Object(EntriesOf(items)))
  {
    hide EntriesOf, Read;
    var lines := Flatten(items, 0);
    assert lines != [] by { assert lines[0] == Line(0, items[0].text); }
    assert IsLayoutOf(items, lines);
    ReadsExactlyLayouts(lines, EntriesOf(items));
  }

  // ----- where a line's parent stands -----

  lemma {:induction false} FlattenNotShallower(items: seq<Item>, indent: nat)
    requires AllWellFormed(items, indent)
    ensures forall i | 0 <= i < |Flatten(items, indent)| :: Flatten(items, indent)[i].indent >= indent
    decreases items
  {
    hide Flatten;
    if items != [] {
      hide GoodItem;
      FlattenNotShallower(items[1..], indent);
      if items[0].children != [] {
        GoodChildren(items[0], indent);
        FlattenNotShallower(items[0].children, items[0].childIndent);
      } else {
        NothingFlattened(items[0].childIndent);
      }
      FlattenCons(items, indent);
      StackedNotShallower(Line(indent, items[0].text), Flatten(items[0].children, items[0].childIndent),
                          Flatten(items[1..], indent), indent);
    } else {
      NothingFlattened(indent);
    }
  }

  lemma StackedNotShallower(head: Line, below: seq<Line>, rest: seq<Line>, indent: nat)
    requires head.indent >= indent
    requires forall i | 0 <= i < |below| :: below[i].indent >= indent
    requires forall i | 0 <= i < |rest| :: rest[i].indent >= indent
    ensures forall i | 0 <= i < |[head] + (below + rest)| :: ([head] + (below + rest))[i].indent >= indent
  {
  }

  /** The position of the k-th item's line among the lines of its siblings and everything below them. */
  function LineAt(items: seq<Item>, indent: nat, k: nat): nat
    requires k < |items|
    decreases k
  {
    if k == 0 then 0 else 1 + |Flatten(items[0].children, items[0].childIndent)| + LineAt(items[1..], indent, k - 1)
  }

  lemma {:induction false} LineAtIs(items: seq<Item>, indent: nat, k: nat)
    requires k < |items|
    ensures LineAt(items, indent, k) < |Flatten(items, indent)|
    ensures Flatten(items, indent)[LineAt(items, indent, k)] == Line(indent, items[k].text)
    decreases k
  {
    if k > 0 {
      LineAtIs(items[1..], indent, k - 1);
      var below, rest := Flatten(items[0].children, items[0].childIndent), Flatten(items[1..], indent);
      assert Flatten(items, indent)[1 + |below| + LineAt(items[1..], indent, k - 1)] == rest[LineAt(items[1..], indent, k - 1)];
    }
  }

  /** A nested line's parent is the nearest preceding line of smaller indentation: in the lines of an item and
      all below it, every line before a child's, except the item's own, is at least as deep as the child. */
  lemma ParentIsNearestShallower(item: Item, indent: nat, k: nat, i: nat)
    requires GoodItem(item, indent) && k < |item.children|
    requires i <= LineAt(item.children, item.childIndent, k)
    ensures var lines := [Line(indent, item.text)] + Flatten(item.children, item.childIndent);
            var child := 1 + LineAt(item.children, item.childIndent, k);
            && child < |lines| && lines[child] == Line(item.childIndent, item.children[k].text)
            && (lines[i].indent < lines[child].indent <==> i == 0)
  {
    hide Flatten, LineAt;
    LineAtIs(item.children, item.childIndent, k);
    FlattenNotShallower(item.children, item.childIndent);
  }

  // ----- down to the text -----

  function Spaces(n: nat): (s: string)
    ensures |s| == n && forall i | 0 <= i < n :: s[i] == ' '
  {
    if n == 0 then "" else " " + Spaces(n - 1)
  }

  function PrintedLine(l: Line): string { Spaces(l.indent) + l.text }

  function Printed(lines: seq<Line>): string
    requires lines != []
  {
    if |lines| == 1 then PrintedLine(lines[0]) else PrintedLine(lines[0]) + (['\n'] + Printed(lines[1..]))
  }

  /** A text that can stand on a line: trimmed, nonempty, no comment, no line break. */
  predicate Plain(text: string) {
    text != "" && Trim(text) == text && text[0] != '#' && forall i | 0 <= i < |text| :: text[i] != '\n'
  }

  lemma TrimStartSpace(s: string)
    ensures TrimStart(" " + s) == TrimStart(s)
  {
    assert White(' ');
    hide White;
    assert (" " + s)[1..] == s;
  }

  lemma {:induction false} SpacesTrimmed(n: nat, text: string)
    requires TrimStart(text) == text
    ensures TrimStart(Spaces(n) + text) == text
  {
    hide TrimStart, White;
    if n == 0 {
      assert Spaces(0) + text == text;
    } else {
      SpacesTrimmed(n - 1, text);
      SpacesHead(n, text);
      hide Spaces;
      TrimStartSpace(Spaces(n - 1) + text);
    }
  }

  lemma SpacesHead(n: nat, text: string)
    requires n > 0
    ensures Spaces(n) + text == " " + (Spaces(n - 1) + text)
  {
  }

  lemma {:induction false} SpacesLength(n: nat)
    ensures Utf8Length(Spaces(n)) == n
  {
    if n > 0 {
      SpacesLength(n - 1);
      assert Spaces(n)[1..] == Spaces(n - 1);
    }
  }

  lemma TrimmedText(text: string)
    requires text != "" && Trim(text) == text
    ensures TrimStart(text) == text && TrimEnd(text) == text
  {
    hide White;
    assert TrimStart(text) == text;
  }

  lemma PrintedLineHead(l: Line)
    requires TrimStart(l.text) == l.text
    ensures TrimStart(PrintedLine(l)) == l.text
    ensures PrintedLine(l)[..|PrintedLine(l)| - |l.text|] == Spaces(l.indent)
  {
    hide TrimStart;
    SpacesTrimmed(l.indent, l.text);
  }

  lemma PrintedLineReads(l: Line)
    requires Plain(l.text)
    ensures Significant(PrintedLine(l)) && LineOf(PrintedLine(l)) == l
  {
    hide Trim, TrimStart, TrimEnd, Utf8Length, PrintedLine, Spaces, Significant, LineOf, White;
    TrimmedText(l.text);
    PrintedLineHead(l);
    SpacesLength(l.indent);
    ReadsAs(PrintedLine(l), l.text, Spaces(l.indent), l.indent);
  }

  lemma ReadsAs(raw: string, text: string, prefix: string, n: nat)
    requires TrimStart(raw) == text && TrimEnd(text) == text && text != "" && text[0] != '#'
    requires raw[..|raw| - |text|] == prefix && Utf8Length(prefix) == n
    ensures Significant(raw) && LineOf(raw) == Line(n, text)
  {
    hide TrimStart, TrimEnd, Utf8Length;
  }

  lemma PrintedLineUnbroken(l: Line)
    requires Plain(l.text)
    ensures forall i | 0 <= i < |PrintedLine(l)| :: PrintedLine(l)[i] != '\n'
  {
    hide Trim;
  }

  lemma {:induction false} PrintedLinesRead(lines: seq<Line>)
    requires lines != [] && forall i | 0 <= i < |lines| :: Plain(lines[i].text)
    ensures LinesOf(Split(Printed(lines), '\n')) == lines
  {
    hide Significant, LineOf, PrintedLine, Plain, Split;
    PrintedLineReads(lines[0]);
    PrintedLineUnbroken(lines[0]);
    if |lines| == 1 {
      SplitLast(PrintedLine(lines[0]), '\n');
      assert [PrintedLine(lines[0])][1..] == [];
    } else {
      SplitAt(PrintedLine(lines[0]), '\n', Printed(lines[1..]));
      PrintedLinesRead(lines[1..]);
      assert ([PrintedLine(lines[0])] + Split(Printed(lines[1..]), '\n'))[1..] == Split(Printed(lines[1..]), '\n');
    }
  }

  /** Printing any well-formed tree with increasing indents and reading the text gives the tree back. */
  lemma PrintedTextReadsBack(items: seq<Item>)
    requires items != [] && WellFormed(items, 0)
    requires forall i | 0 <= i < |Flatten(items, 0)| :: Plain(Flatten(items, 0)[i].text)
    ensures Flatten(items, 0) != []
    ensures Reads(LinesOf(Split(Printed(Flatten(items, 0)), '\n'))) == Ok(Object(EntriesOf(items)))
  {
    hide WellFormed, EntriesOf, Reads, Split, LinesOf, Plain, Printed;
    assert Flatten(items, 0)[0] == Line(0, items[0].text);
    PrintedLinesRead(Flatten(items, 0));
    PrintedTreeReadsBack(items);
  }

  // ----- printing a tree of keys and values -----

  /** A key that can stand before a colon. */
  predicate PlainKey(key: string) {
    && Trim(key) == key && (key != "" ==> key[0] != '#')
    && forall i | 0 <= i < |key| :: key[i] != ':' && key[i] != '\n'
  }

  predicate PlainScalar(text: string) {
    text != "" && Trim(text) == text && forall i | 0 <= i < |text| :: text[i] != '\n'
  }

  /** What the format can express: plain keys, no two alike among siblings, plain scalars, no empty block. */
  predicate Printable(entries: seq<Entry>)
    decreases entries
  {
    && (forall i, j | 0 <= i < j < |entries| :: entries[i].key != entries[j].key)
    && AllPrintable(entries)
  }

  predicate AllPrintable(entries: seq<Entry>)
    decreases entries, 0
  {
    entries == [] || (PrintableEntry(entries[0]) && AllPrintable(entries[1..]))
  }

  predicate PrintableEntry(e: Entry)
    decreases e, 1
  {
    PlainKey(e.key) &&
    match e.value
    case Null => true
    case Scalar(text) => PlainScalar(text)
    case Object(children) => children != [] && Printable(children)
  }

  function LineText(e: Entry): string {
    e.key + (":" + match e.value case Scalar(text) => " " + text case _ => "")
  }

  /** The layout the printer chooses: two more columns for each level. */
  function LayoutOf(entries: seq<Entry>, indent: nat): seq<Item>
    decreases entries, 0
  {
    if entries == [] then [] else [ItemOf(entries[0], indent)] + LayoutOf(entries[1..], indent)
  }

  function ItemOf(e: Entry, indent: nat): Item
    decreases e, 1
  {
    Item(LineText(e), indent + 2, match e.value case Object(children) => LayoutOf(children, indent + 2) case _ => [])
  }

  function PrintedTree(entries: seq<Entry>): string
    requires entries != []
  {
    assert Flatten(LayoutOf(entries, 0), 0) != [];
    Printed(Flatten(LayoutOf(entries, 0), 0))
  }

  lemma TrimEmpty()
    ensures Trim("") == ""
  {
  }

  lemma TrimSpaced(text: string)
    requires text != "" && Trim(text) == text
    ensures Trim(" " + text) == text
  {
    hide TrimStart, TrimEnd;
    TrimmedText(text);
    TrimStartSpace(text);
  }

  /** The printed line reads back as its key and its value. */
  lemma LineTextReads(e: Entry)
    requires PrintableEntry(e)
    ensures IsPair(LineText(e)) && Key(LineText(e)) == e.key
    ensures Rest(LineText(e)) == match e.value case Scalar(text) => text case _ => ""
  {
    hide Trim, SplitOnce;
    var rest := match e.value case Scalar(text) => " " + text case _ => "";
    SplitAt(e.key, ':', rest);
    assert e.key + ([':'] + rest) == LineText(e);
    if e.value.Scalar? { TrimSpaced(e.value.text); } else { TrimEmpty(); }
  }

  lemma {:induction false} ItemReads(e: Entry, indent: nat)
    requires PrintableEntry(e)
    ensures IsPair(LineText(e)) && ItemKey(ItemOf(e, indent)) == e.key && ItemValue(ItemOf(e, indent)) == e.value
    ensures GoodItem(ItemOf(e, indent), indent)
    decreases e, 1
  {
    hide Trim, SplitOnce, PlainKey, LineText;
    LineTextReads(e);
    if e.value.Object? {
      LayoutReads(e.value.entries, indent + 2);
    }
  }

  lemma {:induction false} LayoutReads(entries: seq<Entry>, indent: nat)
    requires Printable(entries)
    ensures WellFormed(LayoutOf(entries, indent), indent)
    ensures EntriesOf(LayoutOf(entries, indent)) == entries && |LayoutOf(entries, indent)| == |entries|
    decreases entries, 2
  {
    hide PrintableEntry, GoodItem, ItemKey;
    LayoutItems(entries, indent);
    var items := LayoutOf(entries, indent);
    forall i, j | 0 <= i < j < |items| ensures ItemKey(items[i]) != ItemKey(items[j]) {
      assert ItemKey(items[i]) == entries[i].key && ItemKey(items[j]) == entries[j].key;
    }
  }

  lemma {:induction false} LayoutItems(entries: seq<Entry>, indent: nat)
    requires AllPrintable(entries)
    ensures |LayoutOf(entries, indent)| == |entries|
    ensures AllWellFormed(LayoutOf(entries, indent), indent) && EntriesOf(LayoutOf(entries, indent)) == entries
    ensures forall i | 0 <= i < |entries| :: ItemKey(LayoutOf(entries, indent)[i]) == entries[i].key
    decreases entries, 0
  {
    hide PrintableEntry, GoodItem, ItemKey, ItemValue, ItemOf, LineText, IsPair;
    if entries != [] {
      var item, rest := ItemOf(entries[0], indent), LayoutOf(entries[1..], indent);
      ItemReads(entries[0], indent);
      ItemTextIs(entries[0], indent);
      LayoutItems(entries[1..], indent);
      assert ([item] + rest)[1..] == rest;
      assert [entries[0]] + entries[1..] == entries;
      forall i | 0 < i < |entries| ensures ItemKey(LayoutOf(entries, indent)[i]) == entries[i].key {
        assert LayoutOf(entries, indent)[i] == rest[i - 1];
      }
    }
  }

  lemma ItemTextIs(e: Entry, indent: nat)
    ensures ItemOf(e, indent).text == LineText(e)
  {
  }

  lemma TrimmedWhen(s: string)
    requires s != "" && !White(s[0]) && !White(s[|s| - 1])
    ensures Trim(s) == s
  {
    hide White;
  }

  lemma TrimmedEnds(s: string)
    requires s != "" && Trim(s) == s
    ensures !White(s[0]) && !White(s[|s| - 1])
  {
    hide White;
    TrimmedText(s);
  }

  lemma LineTextTrimmed(e: Entry)
    requires PrintableEntry(e)
    ensures Trim(LineText(e)) == LineText(e)
  {
    assert !White(':');
    hide White, Trim;
    if e.key != "" { TrimmedEnds(e.key); }
    if e.value.Scalar? { TrimmedEnds(e.value.text); }
    TrimmedWhen(LineText(e));
  }

  lemma LineTextPlain(e: Entry)
    requires PrintableEntry(e)
    ensures Plain(LineText(e))
  {
    hide Trim;
    LineTextTrimmed(e);
  }

  predicate AllPlain(lines: seq<Line>) {
    forall i | 0 <= i < |lines| :: Plain(lines[i].text)
  }

  lemma StackedPlain(head: Line, below: seq<Line>, rest: seq<Line>)
    requires Plain(head.text) && AllPlain(below) && AllPlain(rest)
    ensures AllPlain([head] + (below + rest))
  {
    hide Plain;
  }

  lemma {:induction false} LayoutPlain(entries: seq<Entry>, indent: nat)
    requires AllPrintable(entries)
    ensures AllPlain(Flatten(LayoutOf(entries, indent), indent))
    decreases entries
  {
    hide Flatten, AllPlain, Plain, LineText, PlainKey, PlainScalar;
    if entries == [] {
      NothingFlattened(indent);
      assert AllPlain([]) by { NoLinesPlain(); }
    } else {
      var items := LayoutOf(entries, indent);
      var e := entries[0];
      LineTextPlain(e);
      LayoutPlain(entries[1..], indent);
      if e.value.Object? {
        LayoutPlain(e.value.entries, indent + 2);
      } else {
        NothingFlattened(indent + 2);
        NoLinesPlain();
      }
      assert items == [ItemOf(e, indent)] + LayoutOf(entries[1..], indent);
      assert items[0] == ItemOf(e, indent) && items[1..] == LayoutOf(entries[1..], indent);
      FlattenCons(items, indent);
      StackedPlain(Line(indent, items[0].text), Flatten(items[0].children, indent + 2), Flatten(items[1..], indent));
    }
  }

  lemma NoLinesPlain()
    ensures AllPlain([])
  {
  }

  /** Printing a tree of plain keys and values and reading the text gives the tree back. */
  lemma PrintedEntriesReadBack(entries: seq<Entry>)
    requires entries != [] && Printable(entries)
    ensures Reads(LinesOf(Split(PrintedTree(entries), '\n'))) == Ok(Object(entries))
  {
    hide EntriesOf, Reads, Split, LinesOf, Plain, Printed, WellFormed, Flatten, AllPrintable;
    var items := LayoutOf(entries, 0);
    LayoutReads(entries, 0);
    PrintableAll(entries);
    LayoutPlain(entries, 0);
    PrintedTextReadsBack(items);
  }

  lemma PrintableAll(entries: seq<Entry>)
    requires Printable(entries)
    ensures AllPrintable(entries)
  {
  }

  // ----- and back: whatever the reader returns can be printed -----

  /** A trimmed string is a stretch of the string, and trimming it again changes nothing. */
  lemma TrimIsTrimmed(s: string)
    ensures Trim(Trim(s)) == Trim(s)
    ensures exists i, j | 0 <= i <= j <= |s| :: Trim(s) == s[i..j]
  {
    hide White, TrimStart, TrimEnd;
    var head := TrimStart(s);
    var r := TrimEnd(head);
    assert r == s[|s| - |head|..|s| - |head| + |r|];
    if r == "" { TrimEmpty(); } else { TrimmedWhen(r); }
  }

  lemma TrimUnbroken(s: string, sep: char)
    requires Unbroken(s, sep)
    ensures Unbroken(Trim(s), sep)
  {
    hide Trim;
    TrimIsTrimmed(s);
    var i, j :| 0 <= i <= j <= |s| && Trim(s) == s[i..j];
  }

  lemma TrimHead(s: string)
    requires s != "" && !White(s[0])
    ensures Trim(s) != "" ==> Trim(s)[0] == s[0]
  {
    hide White, TrimEnd;
    assert TrimStart(s) == s;
  }

  lemma LinePlain(raw: string)
    requires Unbroken(raw, '\n') && Significant(raw)
    ensures Plain(LineOf(raw).text)
  {
    hide Trim, TrimStart, Utf8Length;
    TrimIsTrimmed(raw);
    TrimUnbroken(raw, '\n');
  }

  lemma {:induction false} LinesPlain(raws: seq<string>)
    requires forall k | 0 <= k < |raws| :: Unbroken(raws[k], '\n')
    ensures AllPlain(LinesOf(raws))
  {
    if raws != [] {
      hide Trim, TrimStart, Utf8Length, Plain;
      if Significant(raws[0]) { LinePlain(raws[0]); }
      LinesPlain(raws[1..]);
    }
  }

  lemma PartsUnbroken(text: string, a: string, b: string)
    requires text == a + ([':'] + b) && Unbroken(text, '\n')
    ensures Unbroken(a, '\n') && Unbroken(b, '\n')
  {
    assert forall i | 0 <= i < |a| :: a[i] == text[i];
    assert forall i | 0 <= i < |b| :: b[i] == text[|a| + 1 + i];
  }

  /** The key and the value of a plain line are plain. */
  lemma PairPlain(text: string)
    requires Plain(text) && IsPair(text)
    ensures PlainKey(Key(text)) && (Rest(text) != "" ==> PlainScalar(Rest(text)))
  {
    hide Trim, SplitOnce, White;
    SplitOnceParts(text, ':');
    var (a, b) := SplitOnce(text, ':').value;
    PartsUnbroken(text, a, b);
    TrimmedEnds(text);
    TrimIsTrimmed(a);
    TrimIsTrimmed(b);
    TrimUnbroken(a, ':');
    TrimUnbroken(a, '\n');
    TrimUnbroken(b, '\n');
    if a == "" { TrimEmpty(); } else { TrimHead(a); }
  }

  lemma {:induction false} ItemPrintable(item: Item, indent: nat)
    requires GoodItem(item, indent) && Plain(item.text) && AllPlain(Flatten(item.children, item.childIndent))
    ensures PrintableEntry(Entry(ItemKey(item), ItemValue(item)))
    decreases item, 1
  {
    hide Trim, SplitOnce, Plain, PlainKey, PlainScalar, AllPlain;
    PairPlain(item.text);
    ItemIs(item);
    if item.children != [] {
      LayoutPrintable(item.children, item.childIndent);
    }
  }

  lemma PlainParts(items: seq<Item>, indent: nat)
    requires items != [] && AllPlain(Flatten(items, indent))
    ensures Plain(items[0].text) && AllPlain(Flatten(items[0].children, items[0].childIndent)) && AllPlain(Flatten(items[1..], indent))
  {
    hide Plain, Flatten;
    FlattenCons(items, indent);
    var head, below, rest := Line(indent, items[0].text), Flatten(items[0].children, items[0].childIndent), Flatten(items[1..], indent);
    var all := [head] + (below + rest);
    assert all[0] == head;
    forall i | 0 <= i < |below| ensures Plain(below[i].text) { assert all[1 + i] == below[i]; }
    forall i | 0 <= i < |rest| ensures Plain(rest[i].text) { assert all[1 + |below| + i] == rest[i]; }
  }

  lemma {:induction false} LayoutEntriesPrintable(items: seq<Item>, indent: nat)
    requires AllWellFormed(items, indent) && AllPlain(Flatten(items, indent))
    ensures AllPrintable(EntriesOf(items)) && |EntriesOf(items)| == |items|
    ensures forall i | 0 <= i < |items| :: EntriesOf(items)[i].key == ItemKey(items[i])
    decreases items, 0
  {
    hide GoodItem, Flatten, AllPlain, ItemKey, ItemValue, PrintableEntry;
    if items != [] {
      PlainParts(items, indent);
      ItemPrintable(items[0], indent);
      GoodIsPair(items[0], indent);
      LayoutEntriesPrintable(items[1..], indent);
      assert EntriesOf(items)[1..] == EntriesOf(items[1..]);
    }
  }

  lemma {:induction false} LayoutPrintable(items: seq<Item>, indent: nat)
    requires WellFormed(items, indent) && AllPlain(Flatten(items, indent))
    ensures Printable(EntriesOf(items)) && |EntriesOf(items)| == |items|
    decreases items, 1
  {
    hide AllPrintable, AllWellFormed, AllPlain, ItemKey, EntriesOf;
    LayoutEntriesPrintable(items, indent);
  }

  ghost predicate Returned(entries: seq<Entry>) {
    exists text: string :: ReadFrom(text, entries)
  }

  predicate ReadFrom(text: string, entries: seq<Entry>) {
    Reads(LinesOf(Split(text, '\n'))) == Ok(Object(entries))
  }

  lemma ReadTreeIsPrintable(text: string, entries: seq<Entry>)
    requires ReadFrom(text, entries)
    ensures entries != [] && Printable(entries)
  {
    hide Reads, Split, LinesOf, Printable, WellFormed, EntriesOf, Flatten;
    var raws := Split(text, '\n');
    SplitUnbroken(text, '\n');
    LinesPlain(raws);
    ReadsExactlyLayouts(LinesOf(raws), entries);
    var items :| IsLayoutOf(items, LinesOf(raws)) && EntriesOf(items) == entries;
    LayoutPrintable(items, 0);
    NothingFlattened(0);
  }

  /** Exactly the trees the reader can return: those that can be printed. */
  lemma ReturnsExactlyPrintable(entries: seq<Entry>)
    ensures Returned(entries) <==> entries != [] && Printable(entries)
  {
    hide Reads, Split, LinesOf, Printable, PrintedTree, ReadFrom;
    if text: string :| ReadFrom(text, entries) { ReadTreeIsPrintable(text, entries); }
    if entries != [] && Printable(entries) {
      PrintedIsRead(entries);
    }
  }

  lemma PrintedIsRead(entries: seq<Entry>)
    requires entries != [] && Printable(entries)
    ensures ReadFrom(PrintedTree(entries), entries)
  {
    hide Reads, Split, LinesOf, Printable, PrintedTree;
    PrintedEntriesReadBack(entries);
  }
}
