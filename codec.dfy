/**
 * How a canvas section travels between the editor and storage. Stored, a section is
 * one string with one item per line; in the editor it is the list of item texts.
 * Saving trims every item, drops the empty ones and joins the rest with newlines;
 * loading splits on newlines and drops the lines that are blank. The item counter on
 * the canvas grid splits the same way but drops only the lines that are empty.
 */
module CanvasCodec {
  import opened Seqs
  import opened Strings

  /** `s.trim()` is truthy: the line holds something besides white space. */
  predicate NonBlank(s: string) {
    Trim(s) != []
  }

  /** `Boolean(s)` for a string. */
  predicate NonEmpty(s: string) {
    s != []
  }

  /** What an item must look like to survive a save and a reload unchanged. */
  predicate PlainItem(s: string) {
    s != [] && IsTrimmed(s) && '\n' !in s
  }

  predicate NoNewlines(items: seq<string>) {
    forall i :: 0 <= i < |items| ==> '\n' !in items[i]
  }

  /** Loading a section: `value.split('\n').filter(item => item.trim())`. */
  function Decode(text: string): (r: seq<string>)
    ensures IsSubsequence(r, Split(text, '\n'))
    ensures forall i :: 0 <= i < |r| ==> NonBlank(r[i]) && '\n' !in r[i]
    ensures KeepsNonBlank(r, Split(text, '\n'))
  {
    var lines := Split(text, '\n');
    var r := Filter(lines, NonBlank);
    FilteredKeepsNonBlank(lines);
    forall i | 0 <= i < |r| ensures NonBlank(r[i]) && '\n' !in r[i] {
      DecodedLine(lines, r, i);
    }
    r
  }

  /** `r` holds every non-blank line of `lines` exactly as often as `lines` does, and nothing else. */
  ghost predicate KeepsNonBlank(r: seq<string>, lines: seq<string>) {
    && (forall x :: x in r <==> x in lines && NonBlank(x))
    && (forall x :: multiset(r)[x] == if NonBlank(x) then multiset(lines)[x] else 0)
  }

  lemma FilteredKeepsNonBlank(lines: seq<string>)
    ensures KeepsNonBlank(Filter(lines, NonBlank), lines)
  {
    FilterCounts(lines, NonBlank);
  }

  lemma DecodedLine(lines: seq<string>, r: seq<string>, i: nat)
    requires forall j :: 0 <= j < |lines| ==> '\n' !in lines[j]
    requires r == Filter(lines, NonBlank) && i < |r|
    ensures NonBlank(r[i]) && '\n' !in r[i]
  {
    assert r[i] in lines;
  }

  /** The item texts a save keeps: each one trimmed, the empty ones dropped, order kept. */
  function Clean(items: seq<string>): (r: seq<string>)
    ensures |r| <= |items|
    ensures IsSubsequence(r, MapTrim(items))
    ensures forall i :: 0 <= i < |r| ==> r[i] != [] && IsTrimmed(r[i])
  {
    var trimmed := MapTrim(items);
    var r := Filter(trimmed, NonEmpty);
    forall i | 0 <= i < |r|
      ensures r[i] != [] && IsTrimmed(r[i])
    {
      CleanedItem(trimmed, r, i);
    }
    r
  }

  lemma CleanedItem(trimmed: seq<string>, r: seq<string>, i: nat)
    requires forall j :: 0 <= j < |trimmed| ==> IsTrimmed(trimmed[j])
    requires r == Filter(trimmed, NonEmpty) && i < |r|
    ensures r[i] != [] && IsTrimmed(r[i])
  {
    assert r[i] in trimmed;
  }

  /** Saving a section: `items.map(i => i.trim()).filter(Boolean).join('\n')`. */
  function Encode(items: seq<string>): string {
    Join(Clean(items), "\n")
  }

  /** One section's share of `countCanvasItems`: `section.split('\n').filter(Boolean).length`. */
  function LineCount(text: string): (n: nat)
    ensures n <= Count(text, '\n') + 1
    ensures text == [] ==> n == 0
  {
    var lines := Split(text, '\n');
    assert text == [] ==> lines == [[]];
    |Filter(lines, NonEmpty)|
  }

  lemma NonBlankIsNonEmpty(s: string)
    ensures NonBlank(s) ==> NonEmpty(s)
  {
    if s == [] {
      assert AllWhitespace(s);
    }
  }

  /** A trimmed, newline-free item cleans to itself, so `Clean` changes nothing on such a list. */
  lemma {:induction false} CleanOfPlain(items: seq<string>)
    requires forall i :: 0 <= i < |items| ==> PlainItem(items[i])
    ensures Clean(items) == items
  {
    var trimmed := MapTrim(items);
    forall i | 0 <= i < |items| ensures trimmed[i] == items[i] {
      TrimOfTrimmed(items[i]);
    }
    assert trimmed == items;
    FilterKeepsAll(items, NonEmpty);
  }

  /** Cleaning twice is cleaning once. */
  lemma CleanIdempotent(items: seq<string>)
    ensures Clean(Clean(items)) == Clean(items)
  {
    var c := Clean(items);
    var trimmed := MapTrim(c);
    forall i | 0 <= i < |c| ensures trimmed[i] == c[i] {
      TrimOfTrimmed(c[i]);
    }
    assert trimmed == c;
    FilterKeepsAll(c, NonEmpty);
  }

  /** Cleaning a concatenation cleans each part. */
  lemma CleanConcat(a: seq<string>, b: seq<string>)
    ensures Clean(a + b) == Clean(a) + Clean(b)
  {
    MapTrimConcat(a, b);
    FilterConcat(MapTrim(a), MapTrim(b), NonEmpty);
  }

  /** A non-blank item cleans to its trimmed text. */
  lemma CleanSingle(e: string)
    requires NonBlank(e)
    ensures Clean([e]) == [Trim(e)]
  {
    var trimmed := MapTrim([e]);
    assert trimmed == [Trim(e)];
    assert trimmed[1..] == [];
    assert Filter(trimmed, NonEmpty) == [trimmed[0]] + Filter(trimmed[1..], NonEmpty);
  }

  /** A blank item is cleaned away. */
  lemma CleanBlank(e: string)
    requires AllWhitespace(e)
    ensures Clean([e]) == []
  {
    var trimmed := MapTrim([e]);
    assert trimmed == [Trim(e)];
    assert Trim(e) == [];
  }

  /** Loading what was saved gives the cleaned items, provided no item holds a newline. */
  lemma DecodeEncode(items: seq<string>)
    requires NoNewlines(items)
    ensures Decode(Encode(items)) == Clean(items)
  {
    var c := Clean(items);
    if c == [] {
      assert Encode(items) == [];
      assert Split([], '\n') == [[]];
      assert !NonBlank([]) by {
        assert AllWhitespace([]);
      }
    } else {
      forall i | 0 <= i < |c| ensures '\n' !in c[i] {
        CleanKeepsChars(items, c[i]);
      }
      SplitJoinExact(c, '\n');
      assert "\n" == ['\n'];
      forall i | 0 <= i < |c| ensures NonBlank(c[i]) {
        TrimOfTrimmed(c[i]);
      }
      FilterKeepsAll(c, NonBlank);
    }
  }

  /**
   * A save writes one line per kept item: split on newlines, the stored text gives the
   * kept items back, and nothing is stored when nothing was kept.
   */
  lemma EncodeOneLinePerItem(items: seq<string>)
    requires NoNewlines(items)
    ensures Clean(items) == [] ==> Encode(items) == []
    ensures Clean(items) != [] ==> Split(Encode(items), '\n') == Clean(items)
  {
    var c := Clean(items);
    if c != [] {
      forall i | 0 <= i < |c| ensures '\n' !in c[i] {
        CleanKeepsChars(items, c[i]);
      }
      SplitJoinExact(c, '\n');
      assert "\n" == ['\n'];
    }
  }

  /** A character of a cleaned item is a character of the item it came from. */
  lemma CleanKeepsChars(items: seq<string>, x: string)
    requires x in Clean(items)
    ensures exists i :: 0 <= i < |items| && (forall ch :: ch in x ==> ch in items[i])
  {
    var trimmed := MapTrim(items);
    assert x in trimmed;
    var i :| 0 <= i < |trimmed| && trimmed[i] == x;
    MapTrimAt(items, i);
    TrimKeepsChars(items[i], TrimStart(items[i]), x);
  }

  /** Items that are already trimmed, non-empty and newline-free survive a save and a reload exactly. */
  lemma RoundTrip(items: seq<string>)
    requires forall i :: 0 <= i < |items| ==> PlainItem(items[i])
    ensures Decode(Encode(items)) == items
  {
    CleanOfPlain(items);
    DecodeEncode(items);
  }

  /** Saving, reloading and saving again stores the same text as the first save. */
  lemma EncodeDecodeEncode(items: seq<string>)
    requires NoNewlines(items)
    ensures Encode(Decode(Encode(items))) == Encode(items)
  {
    DecodeEncode(items);
    CleanIdempotent(items);
  }

  /** Editing an item to blank text stores the same as deleting it. */
  lemma BlankEditDeletes(items: seq<string>, i: nat, e: string)
    requires i < |items| && AllWhitespace(e)
    ensures Encode(items[i := e]) == Encode(items[..i] + items[i + 1..])
  {
    var a, b := items[..i], items[i + 1..];
    assert items[i := e] == a + [e] + b;
    CleanConcat(a + [e], b);
    CleanConcat(a, [e]);
    CleanConcat(a, b);
    CleanBlank(e);
    assert Clean(a) + [] == Clean(a);
  }

  /** The grid's item count for a saved section is the number of items the save kept. */
  lemma LineCountOfEncode(items: seq<string>)
    requires NoNewlines(items)
    ensures LineCount(Encode(items)) == |Clean(items)|
  {
    var c := Clean(items);
    if c == [] {
      assert Encode(items) == [];
      assert Split([], '\n') == [[]];
    } else {
      forall i | 0 <= i < |c| ensures '\n' !in c[i] {
        CleanKeepsChars(items, c[i]);
      }
      SplitJoinExact(c, '\n');
      assert "\n" == ['\n'];
      FilterKeepsAll(c, NonEmpty);
    }
  }

  /** The grid never counts fewer items than the editor loads; it may count more. */
  lemma DecodeWithinLineCount(text: string)
    ensures |Decode(text)| <= LineCount(text)
  {
    forall x ensures NonBlank(x) ==> NonEmpty(x) {
      NonBlankIsNonEmpty(x);
    }
    FilterWeakerKeepsMore(Split(text, '\n'), NonBlank, NonEmpty);
  }

  /** A line of one space is counted by the grid but not loaded into the editor. */
  lemma WhitespaceLineCounted()
    ensures LineCount(" ") == 1 && Decode(" ") == []
  {
    SplitAfterPrefix(" ", [], '\n');
    assert " " + [] == " ";
    assert Split(" ", '\n') == [" "];
    assert !NonBlank(" ") by {
      assert AllWhitespace(" ");
    }
  }

  /** A list cleans to something exactly when one of its items is non-blank. */
  lemma CleanNonEmptyIff(items: seq<string>)
    ensures Clean(items) != [] <==> exists i :: 0 <= i < |items| && NonBlank(items[i])
  {
    var trimmed := MapTrim(items);
    if Clean(items) != [] {
      var x := Clean(items)[0];
      assert x in trimmed && x != [];
      var i :| 0 <= i < |trimmed| && trimmed[i] == x;
      assert NonBlank(items[i]);
    }
    if exists i :: 0 <= i < |items| && NonBlank(items[i]) {
      var i :| 0 <= i < |items| && NonBlank(items[i]);
      assert trimmed[i] in trimmed && NonEmpty(trimmed[i]);
      assert trimmed[i] in Clean(items);
    }
  }

  /** The saved text of a section is non-blank exactly when the save kept an item. */
  lemma EncodeNonBlankIff(items: seq<string>)
    ensures NonBlank(Encode(items)) <==> Clean(items) != []
  {
    var c := Clean(items);
    if c == [] {
      assert Encode(items) == [];
      assert AllWhitespace([]);
    } else {
      var ch := NonWhitespaceChar(c[0]);
      JoinContainsItems(c, "\n", 0, ch);
      NotAllWhitespace(Encode(items), ch);
    }
  }

  /** A non-blank text loads to at least one item, and a blank one to none. */
  lemma DecodeNonEmptyIff(text: string)
    ensures Decode(text) != [] <==> NonBlank(text)
  {
    var lines := Split(text, '\n');
    if Decode(text) != [] {
      LoadedLineShows(text, lines, Decode(text)[0]);
    }
    if NonBlank(text) {
      NonBlankTextLoads(text);
    }
  }

  /** A non-blank text has a non-blank line, and loading keeps it. */
  lemma NonBlankTextLoads(text: string)
    requires NonBlank(text)
    ensures Decode(text) != []
  {
    var lines := Split(text, '\n');
    var ch := NonWhitespaceChar(text);
    var i := JoinCharSource(lines, ['\n'], ch);
    NotAllWhitespace(lines[i], ch);
    LineLoaded(text, lines, i);
  }

  lemma LineLoaded(text: string, lines: seq<string>, i: nat)
    requires lines == Split(text, '\n') && i < |lines| && NonBlank(lines[i])
    ensures lines[i] in Decode(text)
  {
  }

  /** A non-blank line of a text makes the text non-blank. */
  lemma LoadedLineShows(text: string, lines: seq<string>, x: string)
    requires lines == Split(text, '\n') && x in lines && NonBlank(x)
    ensures NonBlank(text)
  {
    var i :| 0 <= i < |lines| && lines[i] == x;
    var ch := NonWhitespaceChar(x);
    JoinContainsItems(lines, ['\n'], i, ch);
    NotAllWhitespace(text, ch);
  }

  /**
   * A stored section is non-blank after the editor loads it and saves it again exactly
   * when it was non-blank before: a reload neither completes nor breaks a canvas.
   */
  lemma ReloadKeepsCompleteness(text: string)
    ensures NonBlank(Encode(Decode(text))) <==> NonBlank(text)
  {
    var d := Decode(text);
    EncodeNonBlankIff(d);
    DecodeNonEmptyIff(text);
    if d != [] {
      CleanKeepsNonBlank(d);
    }
  }

  lemma CleanKeepsNonBlank(items: seq<string>)
    requires items != [] && NonBlank(items[0])
    ensures Clean(items) != []
  {
    var trimmed := MapTrim(items);
    assert trimmed[0] in trimmed && NonEmpty(trimmed[0]);
  }

  /** A text whose lines are all plain items is stored again unchanged after a load and a save. */
  lemma CanonicalText(text: string)
    requires forall i :: 0 <= i < |Split(text, '\n')| ==> PlainItem(Split(text, '\n')[i])
    ensures Encode(Decode(text)) == text
  {
    var lines := Split(text, '\n');
    forall i | 0 <= i < |lines| ensures NonBlank(lines[i]) {
      TrimOfTrimmed(lines[i]);
    }
    FilterKeepsAll(lines, NonBlank);
    CleanOfPlain(lines);
    assert "\n" == ['\n'];
  }

  /** A character of `s` that is not white space. */
  lemma NonWhitespaceChar(s: string) returns (ch: char)
    requires NonBlank(s)
    ensures ch in s && !IsWhitespace(ch)
  {
    var i :| 0 <= i < |s| && !IsWhitespace(s[i]);
    ch := s[i];
  }

  lemma NotAllWhitespace(s: string, ch: char)
    requires ch in s && !IsWhitespace(ch)
    ensures NonBlank(s)
  {
  }
}
