/**
 * The JavaScript string operations the screens rely on:
 * `String.prototype.trim`, `String.prototype.split` with a one-character
 * separator, `Array.prototype.join`, `String.prototype.includes`, and the
 * comma-list idiom `s.split(',').map(x => x.trim()).filter(Boolean)`.
 */
module Text {
  import opened Wrappers
  import Seqs

  /**
   * The characters `trim` removes: ECMAScript WhiteSpace (TAB, VT, FF, SPACE,
   * NO-BREAK SPACE, ZERO WIDTH NO-BREAK SPACE and the Zs category) and
   * LineTerminator (LF, CR, LINE SEPARATOR, PARAGRAPH SEPARATOR).
   */
  predicate IsWhitespace(c: char) {
    var n := c as int;
    n == 0x09 || n == 0x0A || n == 0x0B || n == 0x0C || n == 0x0D || n == 0x20
    || n == 0xA0 || n == 0x1680 || (0x2000 <= n <= 0x200A)
    || n == 0x2028 || n == 0x2029 || n == 0x202F || n == 0x205F
    || n == 0x3000 || n == 0xFEFF
  }

  /** Every character is whitespace (this includes the empty string). */
  predicate IsBlank(s: string) {
    forall i :: 0 <= i < |s| ==> IsWhitespace(s[i])
  }

  /** The number of whitespace characters `s` starts with. */
  function LeadingBlanks(s: string): (k: nat)
    ensures k <= |s|
    ensures forall i :: 0 <= i < k ==> IsWhitespace(s[i])
    ensures k < |s| ==> !IsWhitespace(s[k])
  {
    if |s| > 0 && IsWhitespace(s[0]) then 1 + LeadingBlanks(s[1..]) else 0
  }

  /** The number of whitespace characters `s` ends with. */
  function TrailingBlanks(s: string): (k: nat)
    ensures k <= |s|
    ensures forall i :: |s| - k <= i < |s| ==> IsWhitespace(s[i])
    ensures k < |s| ==> !IsWhitespace(s[|s| - k - 1])
  {
    if |s| > 0 && IsWhitespace(s[|s| - 1]) then 1 + TrailingBlanks(s[..|s| - 1]) else 0
  }

  /**
   * `s.trim()`: the infix of `s` left after dropping whitespace at both ends.
   * Everything dropped is whitespace; the result is empty exactly when `s` is
   * blank, and otherwise starts and ends with a non-whitespace character.
   */
  function Trim(s: string): (r: string)
    ensures LeadingBlanks(s) + |r| <= |s|
    ensures r == s[LeadingBlanks(s)..LeadingBlanks(s) + |r|]
    ensures forall i :: LeadingBlanks(s) + |r| <= i < |s| ==> IsWhitespace(s[i])
    ensures r == [] <==> IsBlank(s)
    ensures |r| > 0 ==> !IsWhitespace(r[0]) && !IsWhitespace(r[|r| - 1])
  {
    var a := LeadingBlanks(s);
    var t := s[a..];
    var b := TrailingBlanks(t);
    assert forall i :: a <= i < |s| ==> s[i] == t[i - a];
    assert t[..|t| - b] == s[a..a + (|t| - b)];
    assert |t| - b == 0 ==> IsBlank(s);
    assert |t| - b > 0 ==> s[a] == t[0] && !IsWhitespace(t[0]);
    t[..|t| - b]
  }

  /** A string with no whitespace at either end is its own trim. */
  lemma TrimFixed(s: string)
    requires |s| > 0 ==> !IsWhitespace(s[0]) && !IsWhitespace(s[|s| - 1])
    ensures Trim(s) == s
  {
    if |s| > 0 {
      assert LeadingBlanks(s) == 0;
      assert TrailingBlanks(s) == 0;
    }
  }

  /** Trimming twice is trimming once. */
  lemma TrimIdempotent(s: string)
    ensures Trim(Trim(s)) == Trim(s)
  {
    TrimFixed(Trim(s));
  }

  /** Trimming never introduces a character that was not in the input. */
  lemma TrimChars(s: string, c: char)
    requires c !in s
    ensures c !in Trim(s)
  {
    var r := Trim(s);
    var a := LeadingBlanks(s);
    assert forall i :: 0 <= i < |r| ==> r[i] == s[a + i];
  }

  /** The first position of `c` in `s`. */
  function IndexOf(s: string, c: char): (i: nat)
    requires c in s
    ensures i < |s| && s[i] == c && c !in s[..i]
  {
    if s[0] == c then 0 else 1 + IndexOf(s[1..], c)
  }

  /**
   * `s.split(sep)`: the maximal `sep`-free pieces between separators. There
   * is always at least one piece (`"".split(',')` is `[""]`).
   */
  function Split(s: string, sep: char): (parts: seq<string>)
    ensures |parts| >= 1
    ensures forall k :: 0 <= k < |parts| ==> sep !in parts[k]
    decreases |s|
  {
    if sep in s then
      var i := IndexOf(s, sep);
      [s[..i]] + Split(s[i + 1..], sep)
    else
      [s]
  }

  /** `parts.join(sep)`. */
  function Join(parts: seq<string>, sep: char): string
  {
    if |parts| == 0 then ""
    else if |parts| == 1 then parts[0]
    else parts[0] + [sep] + Join(parts[1..], sep)
  }

  /** Splitting and re-joining with the same separator gives the input back. */
  lemma {:induction false} JoinSplit(s: string, sep: char)
    ensures Join(Split(s, sep), sep) == s
    decreases |s|
  {
    if sep in s {
      var i := IndexOf(s, sep);
      var rest := Split(s[i + 1..], sep);
      var parts := Split(s, sep);
      assert parts == [s[..i]] + rest;
      assert |parts| >= 2 && parts[0] == s[..i] && parts[1..] == rest;
      assert Join(parts, sep) == s[..i] + [sep] + Join(rest, sep);
      JoinSplit(s[i + 1..], sep);
      assert s == s[..i] + [sep] + s[i + 1..];
    } else {
      assert Split(s, sep) == [s];
    }
  }

  /** Splitting at a first separator that follows a separator-free piece. */
  lemma SplitStep(x: string, sep: char, tail: string)
    requires sep !in x
    ensures Split(x + [sep] + tail, sep) == [x] + Split(tail, sep)
  {
    var s := x + [sep] + tail;
    assert s[|x|] == sep;
    var i := IndexOf(s, sep);
    assert s[..i] == x;
    assert s[i + 1..] == tail;
  }

  /** Joining separator-free pieces and splitting again recovers the pieces. */
  lemma {:induction false} SplitJoin(parts: seq<string>, sep: char)
    requires |parts| >= 1
    requires forall k :: 0 <= k < |parts| ==> sep !in parts[k]
    ensures Split(Join(parts, sep), sep) == parts
  {
    if |parts| > 1 {
      SplitStep(parts[0], sep, Join(parts[1..], sep));
      SplitJoin(parts[1..], sep);
      assert parts == [parts[0]] + parts[1..];
    }
  }

  /** `items.map(x => x.trim())`. */
  function TrimAll(items: seq<string>): (r: seq<string>)
    ensures |r| == |items|
    ensures forall i :: 0 <= i < |r| ==> r[i] == Trim(items[i])
  {
    seq(|items|, i requires 0 <= i < |items| => Trim(items[i]))
  }

  /** A string is truthy in JavaScript exactly when it is not empty. */
  predicate NonEmpty(p: string) {
    p != ""
  }

  /** `items.filter(Boolean)` over strings. */
  function DropEmpty(items: seq<string>): (r: seq<string>)
    ensures Seqs.IsSubsequence(r, items)
    ensures forall p :: p in r <==> p in items && p != ""
    ensures forall p :: p != "" ==> multiset(r)[p] == multiset(items)[p]
  {
    Seqs.Filter(items, NonEmpty)
  }

  /** Dropping empties from a list without empties changes nothing. */
  lemma DropEmptyAllKept(items: seq<string>)
    requires forall i :: 0 <= i < |items| ==> NonEmpty(items[i])
    ensures DropEmpty(items) == items
  {
    Seqs.FilterAllKept(items, NonEmpty);
  }

  /** Trimmed comma-free pieces are trimmed and stay comma-free. */
  lemma TrimmedPiecesAreClean(parts: seq<string>)
    requires forall k :: 0 <= k < |parts| ==> ',' !in parts[k]
    ensures forall p :: p in TrimAll(parts) ==> Trim(p) == p && ',' !in p
  {
    forall k | 0 <= k < |parts|
      ensures Trim(Trim(parts[k])) == Trim(parts[k]) && ',' !in Trim(parts[k])
    {
      TrimIdempotent(parts[k]);
      TrimChars(parts[k], ',');
    }
  }

  /** A list entry as the comma-list idiom produces it. */
  predicate IsListEntry(p: string) {
    p != "" && Trim(p) == p && ',' !in p
  }

  /**
   * `s.split(',').map(x => x.trim()).filter(Boolean)`: the trimmed,
   * non-empty comma-separated pieces of `s`, in input order, duplicates kept.
   */
  function CommaList(s: string): (r: seq<string>)
    ensures forall k :: 0 <= k < |r| ==> IsListEntry(r[k])
    ensures Seqs.IsSubsequence(r, TrimAll(Split(s, ',')))
    ensures forall p :: p in r <==> p != "" && p in TrimAll(Split(s, ','))
    ensures forall p :: p != "" ==> multiset(r)[p] == multiset(TrimAll(Split(s, ',')))[p]
  {
    var parts := Split(s, ',');
    var trimmed := TrimAll(parts);
    TrimmedPiecesAreClean(parts);
    KeptPiecesAreEntries(trimmed);
    DropEmpty(trimmed)
  }

  /** The non-empty members of a list of trimmed, comma-free pieces are list entries. */
  lemma KeptPiecesAreEntries(trimmed: seq<string>)
    requires forall p :: p in trimmed ==> Trim(p) == p && ',' !in p
    ensures forall k :: 0 <= k < |DropEmpty(trimmed)| ==> IsListEntry(DropEmpty(trimmed)[k])
  {
    var r := DropEmpty(trimmed);
    forall k | 0 <= k < |r|
      ensures IsListEntry(r[k])
    {
      assert r[k] in r;
      assert r[k] in trimmed && r[k] != "";
    }
  }

  /** Trimming strings that are already trimmed changes nothing. */
  lemma TrimAllFixed(items: seq<string>)
    requires forall k :: 0 <= k < |items| ==> Trim(items[k]) == items[k]
    ensures TrimAll(items) == items
  {
  }

  /** The empty input has no entries. */
  lemma EmptyCommaList()
    ensures CommaList("") == []
  {
    assert Split("", ',') == [""];
    assert TrimAll([""]) == [""];
    assert DropEmpty([""]) == [];
  }

  /** Joining list entries with commas and parsing the result gives the entries back. */
  lemma CommaListJoin(items: seq<string>)
    requires forall k :: 0 <= k < |items| ==> IsListEntry(items[k])
    ensures CommaList(Join(items, ',')) == items
  {
    var s := Join(items, ',');
    if |items| == 0 {
      EmptyCommaList();
    } else {
      var parts := Split(s, ',');
      assert parts == items by {
        SplitJoin(items, ',');
      }
      assert TrimAll(parts) == items by {
        TrimAllFixed(items);
      }
      assert DropEmpty(items) == items by {
        Seqs.FilterAllKept(items, NonEmpty);
      }
      assert CommaList(s) == DropEmpty(TrimAll(parts));
    }
  }

  /**
   * `hay.includes(needle)`, by scanning: `needle` is a prefix of `hay` or of
   * one of its suffixes.
   */
  predicate Contains(hay: string, needle: string)
    decreases |hay|
  {
    (|needle| <= |hay| && hay[..|needle|] == needle)
    || (|hay| > 0 && Contains(hay[1..], needle))
  }

  /** `needle` occurs in `hay` starting at position `i`. */
  predicate OccursAt(hay: string, needle: string, i: int) {
    0 <= i && i + |needle| <= |hay| && hay[i..i + |needle|] == needle
  }

  /** The scan agrees with the positional definition of a substring occurrence. */
  lemma {:induction false} ContainsIffOccurs(hay: string, needle: string)
    ensures Contains(hay, needle) <==> exists i :: OccursAt(hay, needle, i)
    decreases |hay|
  {
    if |hay| > 0 {
      if |needle| <= |hay| && hay[..|needle|] == needle {
        assert OccursAt(hay, needle, 0);
      }
      ContainsIffOccurs(hay[1..], needle);
      if Contains(hay[1..], needle) {
        var i :| OccursAt(hay[1..], needle, i);
        assert OccursAt(hay, needle, i + 1);
      }
      if exists i :: OccursAt(hay, needle, i) {
        var i :| OccursAt(hay, needle, i);
        if i > 0 {
          assert OccursAt(hay[1..], needle, i - 1);
        } else {
          assert hay[..|needle|] == hay[i..i + |needle|];
        }
      }
    } else {
      if exists i :: OccursAt(hay, needle, i) {
        var i :| OccursAt(hay, needle, i);
        assert hay[..|needle|] == hay[i..i + |needle|];
      }
      if Contains(hay, needle) {
        assert OccursAt(hay, needle, 0);
      }
    }
  }

  /**
   * `err?.message || fallback`: the error's message when it has a non-empty
   * one, the fallback text otherwise.
   */
  function OrDefault(message: Option<string>, fallback: string): (r: string)
    ensures message.Some? && message.value != "" ==> r == message.value
    ensures message.None? || message.value == "" ==> r == fallback
    ensures r != ""
      <==> (message.Some? && message.value != "") || fallback != ""
  {
    if message.Some? && message.value != "" then message.value else fallback
  }
}
