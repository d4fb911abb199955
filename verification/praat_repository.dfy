/** Reading the Praat script's output file: one `name,value` pair per line,
    `#` comments and blank lines skipped, Praat's undefined markers and
    unparseable values read as 0. */
module PraatRepository {
  import opened Wrappers

  /** The characters Python's `str.strip()` removes (`str.isspace()`):
      ASCII whitespace, the separators U+001C to U+001F, U+0085, and the
      Unicode spaces and line or paragraph separators. */
  predicate IsSpace(c: char) {
    c == ' ' || c == '\t' || c == '\n' || c == '\r' || c == '\U{000B}' || c == '\U{000C}'
    || ('\U{001C}' <= c <= '\U{001F}') || c == '\U{0085}' || c == '\U{00A0}'
    || c == '\U{1680}' || ('\U{2000}' <= c <= '\U{200A}') || c == '\U{2028}' || c == '\U{2029}'
    || c == '\U{202F}' || c == '\U{205F}' || c == '\U{3000}'
  }

  /** The first position at or after `i` that is not space (or the end). */
  function LeadingFrom(s: string, i: nat): (n: nat)
    requires i <= |s|
    ensures i <= n <= |s|
    ensures forall j :: i <= j < n ==> IsSpace(s[j])
    ensures n == |s| || !IsSpace(s[n])
    decreases |s| - i
  {
    if i < |s| && IsSpace(s[i]) then LeadingFrom(s, i + 1) else i
  }

  /** Where `s.strip()` starts: the number of leading spaces. */
  function StripStart(s: string): (n: nat)
    ensures n <= |s|
    ensures forall i :: 0 <= i < n ==> IsSpace(s[i])
    ensures n == |s| || !IsSpace(s[n])
  {
    LeadingFrom(s, 0)
  }

  /** Where `s.strip()` ends: the end `e` moved left over trailing spaces,
      but never past `lo`. */
  function StripEnd(s: string, lo: nat, e: nat): (n: nat)
    requires lo <= e <= |s|
    ensures lo <= n <= e
    ensures forall j :: n <= j < e ==> IsSpace(s[j])
    ensures n == lo || !IsSpace(s[n - 1])
    decreases e - lo
  {
    if e > lo && IsSpace(s[e - 1]) then StripEnd(s, lo, e - 1) else e
  }

  /** `s.strip()`: a slice of `s` that neither starts nor ends with a space,
      and everything cut off around it is space. */
  function Strip(s: string): (r: string)
    ensures r == [] || (!IsSpace(r[0]) && !IsSpace(r[|r| - 1]))
    ensures StripStart(s) + |r| <= |s| && r == s[StripStart(s)..StripStart(s) + |r|]
    ensures forall i :: 0 <= i < StripStart(s) ==> IsSpace(s[i])
    ensures forall i :: StripStart(s) + |r| <= i < |s| ==> IsSpace(s[i])
  {
    s[StripStart(s)..StripEnd(s, StripStart(s), |s|)]
  }

  /** The position of the first comma, if any. */
  function FirstComma(s: string): (r: Option<nat>)
    ensures r.Some? ==> r.value < |s| && s[r.value] == ',' && ',' !in s[..r.value]
    ensures r.None? ==> ',' !in s
  {
    if |s| == 0 then None
    else if s[0] == ',' then Some(0)
    else match FirstComma(s[1..])
      case None => None
      case Some(i) =>
        assert s[..i + 1] == [s[0]] + s[1..][..i];
        Some(i + 1)
  }

  function AsciiLower(c: char): char {
    if 'A' <= c <= 'Z' then (c as int + 32) as char else c
  }

  /** `s.lower()`, as far as it matters for the ASCII words compared with. */
  function Lower(s: string): (r: string)
    ensures |r| == |s|
    ensures forall i :: 0 <= i < |s| ==> r[i] == AsciiLower(s[i])
  {
    if |s| == 0 then [] else [AsciiLower(s[0])] + Lower(s[1..])
  }

  /** Praat writes these for a value it could not compute. */
  predicate IsUndefinedMarker(v: string) {
    var l := Lower(v);
    l == "undefined" || l == "--undefined--" || l == "nan" || l == "inf" || l == "-inf"
  }

  /** A value string as a number: 0 for an undefined marker or anything the
      number parser (`float()`, a parameter here) rejects. */
  function ParseValue(v: string, toFloat: string -> Option<real>): (r: real)
    ensures IsUndefinedMarker(v) ==> r == 0.0
    ensures !IsUndefinedMarker(v) && toFloat(v).None? ==> r == 0.0
    ensures !IsUndefinedMarker(v) && toFloat(v).Some? ==> r == toFloat(v).value
  {
    if IsUndefinedMarker(v) then 0.0 else toFloat(v).GetOr(0.0)
  }

  /** A blank line or a comment. */
  predicate Skipped(line: string) {
    Strip(line) == [] || Strip(line)[0] == '#'
  }

  /** One line as a (key, value) entry, or None for a line that is skipped:
      blank, a comment, or without a comma. */
  function ParseLine(line: string, toFloat: string -> Option<real>): (r: Option<(string, real)>)
    ensures Skipped(line) || ',' !in Strip(line) ==> r.None?
    ensures r.Some? ==> ',' !in r.value.0
  {
    var s := Strip(line);
    if |s| == 0 || s[0] == '#' then None
    else match FirstComma(s)
      case None => None
      case Some(i) =>
        var key := Strip(s[..i]);
        assert ',' !in key by {
          var a := StripStart(s[..i]);
          forall j | 0 <= j < |key| ensures key[j] != ',' {
            assert key[j] == s[..i][a + j];
          }
        }
        Some((key, ParseValue(Strip(s[i + 1..]), toFloat)))
  }

  /** The parsed entries of a file, in line order. */
  function Entries(lines: seq<string>, toFloat: string -> Option<real>): (r: seq<(string, real)>)
    ensures |r| <= |lines|
  {
    if |lines| == 0 then []
    else
      var rest := Entries(lines[1..], toFloat);
      match ParseLine(lines[0], toFloat)
      case None => rest
      case Some(e) => [e] + rest
  }

  /** Entries stored one after another into a dictionary, as the loop does. */
  function Store(m: map<string, real>, entries: seq<(string, real)>): map<string, real>
    decreases |entries|
  {
    if |entries| == 0 then m else Store(m[entries[0].0 := entries[0].1], entries[1..])
  }

  /** Some entry has key `k`. */
  predicate HasKey(entries: seq<(string, real)>, k: string) {
    exists i :: 0 <= i < |entries| && entries[i].0 == k
  }

  /** Entry `i` is the last one for its key. */
  predicate LastFor(entries: seq<(string, real)>, i: int) {
    0 <= i < |entries| && forall j :: i < j < |entries| ==> entries[j].0 != entries[i].0
  }

  /** The dictionary after storing: a key is present iff it was present
      before or some entry has it, and the value is the one from the last
      entry with that key (or the old value if none has it). */
  lemma {:induction false} StoreLastWins(m: map<string, real>, entries: seq<(string, real)>, k: string)
    ensures k in Store(m, entries) <==> k in m || exists i :: 0 <= i < |entries| && entries[i].0 == k
    ensures forall i :: LastFor(entries, i) && entries[i].0 == k ==> Store(m, entries)[k] == entries[i].1
    ensures (forall i :: 0 <= i < |entries| ==> entries[i].0 != k) && k in m ==> Store(m, entries)[k] == m[k]
    decreases |entries|
  {
    if |entries| > 0 {
      var m' := m[entries[0].0 := entries[0].1];
      var rest := entries[1..];
      StoreLastWins(m', rest, k);
      if k in Store(m, entries) && k !in m && entries[0].0 != k {
        var i :| 0 <= i < |rest| && rest[i].0 == k;
        assert entries[i + 1].0 == k;
      }
      forall i | 0 <= i < |rest| && rest[i].0 == k
        ensures exists j :: 0 <= j < |entries| && entries[j].0 == k
      {
        assert entries[i + 1] == rest[i];
      }
      forall i | LastFor(entries, i) && entries[i].0 == k
        ensures Store(m, entries)[k] == entries[i].1
      {
        if i > 0 {
          assert LastFor(rest, i - 1) by {
            forall j | i - 1 < j < |rest| ensures rest[j].0 != rest[i - 1].0 {
              assert rest[j] == entries[j + 1];
            }
          }
          assert rest[i - 1] == entries[i];
        } else {
          forall j | 0 <= j < |rest| ensures rest[j].0 != k {
            assert rest[j] == entries[j + 1];
          }
        }
      }
      if (forall i :: 0 <= i < |entries| ==> entries[i].0 != k) && k in m {
        forall j | 0 <= j < |rest| ensures rest[j].0 != k {
          assert rest[j] == entries[j + 1];
        }
      }
    }
  }

  /** `read_output_file`: None when the file is missing (or cannot be read),
      otherwise the dictionary of its entries. */
  function ReadOutputFile(file: Option<seq<string>>, toFloat: string -> Option<real>): (r: Option<map<string, real>>)
    ensures r.Some? <==> file.Some?
    ensures file.Some? && file.value == [] ==> r == Some(map[])
  {
    match file
    case None => None
    case Some(lines) => Some(Store(map[], Entries(lines, toFloat)))
  }

  /** What the file reader promises: the keys are the keys of the parsed
      lines, and each key holds the value of the last line that names it. */
  lemma {:induction false} ReadOutputFileLastWins(lines: seq<string>, toFloat: string -> Option<real>, k: string)
    ensures var m := ReadOutputFile(Some(lines), toFloat).value; var es := Entries(lines, toFloat);
      && (k in m <==> HasKey(es, k))
      && forall i :: LastFor(es, i) && es[i].0 == k ==> m[k] == es[i].1
  {
    var es := Entries(lines, toFloat);
    assert ReadOutputFile(Some(lines), toFloat).value == Store(map[], es);
    StoreFromEmpty(es, k);
  }

  /** Storing into an empty dictionary: exactly the entries' keys, each with
      its last value. */
  lemma {:induction false} StoreFromEmpty(es: seq<(string, real)>, k: string)
    ensures k in Store(map[], es) <==> HasKey(es, k)
    ensures forall i :: LastFor(es, i) && es[i].0 == k ==> Store(map[], es)[k] == es[i].1
  {
    StoreLastWins(map[], es, k);
  }

  lemma {:induction false} SkipOne(lines: seq<string>, toFloat: string -> Option<real>)
    requires |lines| > 0 && Skipped(lines[0])
    ensures Entries(lines, toFloat) == Entries(lines[1..], toFloat)
  {
    assert ParseLine(lines[0], toFloat).None?;
  }

  /** Blank and comment lines in front contribute nothing. */
  lemma {:induction false} SkippedLinesIgnored(comments: seq<string>, lines: seq<string>, toFloat: string -> Option<real>)
    requires forall i :: 0 <= i < |comments| ==> Skipped(comments[i])
    ensures Entries(comments + lines, toFloat) == Entries(lines, toFloat)
  {
    if |comments| > 0 {
      var all := comments + lines;
      assert all[1..] == comments[1..] + lines;
      assert all[0] == comments[0];
      SkipOne(all, toFloat);
      SkippedLinesIgnored(comments[1..], lines, toFloat);
    } else {
      assert comments + lines == lines;
    }
  }

  /** A string with no space at either end is its own `strip()`. */
  lemma {:induction false} StripTrimmed(s: string)
    requires s == [] || (!IsSpace(s[0]) && !IsSpace(s[|s| - 1]))
    ensures Strip(s) == s
  {
  }

  lemma {:induction false} FirstCommaAfter(k: string, rest: string)
    requires ',' !in k
    ensures FirstComma(k + [','] + rest) == Some(|k|)
  {
    if |k| > 0 {
      assert (k + [','] + rest)[1..] == k[1..] + [','] + rest;
      FirstCommaAfter(k[1..], rest);
    }
  }

  /** The line format round-trips: a `key,value` line whose key has no
      comma, does not start a comment, and whose parts carry no outer
      spaces, parses back to that key and the value's reading. */
  lemma {:induction false} ParseFormattedLine(key: string, value: string, toFloat: string -> Option<real>)
    requires ',' !in key && (key == [] || key[0] != '#')
    requires key == [] || (!IsSpace(key[0]) && !IsSpace(key[|key| - 1]))
    requires value == [] || (!IsSpace(value[0]) && !IsSpace(value[|value| - 1]))
    ensures ParseLine(key + [','] + value, toFloat) == Some((key, ParseValue(value, toFloat)))
  {
    var line := key + [','] + value;
    assert line[0] == if key == [] then ',' else key[0];
    assert line[|line| - 1] == if value == [] then ',' else value[|value| - 1];
    StripTrimmed(line);
    FirstCommaAfter(key, value);
    assert line[..|key|] == key;
    assert line[|key| + 1..] == value;
    StripTrimmed(key);
    StripTrimmed(value);
  }

  /** Nothing but whitespace. */
  predicate AllSpace(w: string) {
    forall i :: 0 <= i < |w| ==> IsSpace(w[i])
  }

  /** No whitespace at either end. */
  predicate Trimmed(t: string) {
    t == [] || (!IsSpace(t[0]) && !IsSpace(t[|t| - 1]))
  }

  /** `strip()` removes exactly the whitespace padding around a trimmed text. */
  lemma StripPadded(w1: string, t: string, w2: string)
    requires AllSpace(w1) && AllSpace(w2) && Trimmed(t)
    ensures Strip(w1 + t + w2) == t
  {
    var s := w1 + t + w2;
    var n, r := StripStart(s), Strip(s);
    if t == [] {
      assert s == w1 + w2;
    } else {
      assert s[|w1|] == t[0];
      assert n == |w1|;
      assert s[|w1| + |t| - 1] == t[|t| - 1];
      assert |r| == |t|;
      assert r == s[|w1|..|w1| + |t|] == t;
    }
  }

  /** A stripped line that is a key, a comma and a rest parses to the
      stripped key and the reading of the stripped rest. */
  lemma ParseSplitLine(line: string, head: string, tail: string, toFloat: string -> Option<real>)
    requires Strip(line) == head + [','] + tail
    requires head != [] && head[0] != '#' && ',' !in head
    ensures ParseLine(line, toFloat) == Some((Strip(head), ParseValue(Strip(tail), toFloat)))
  {
    var s := Strip(line);
    FirstCommaAfter(head, tail);
    assert s[..|head|] == head;
    assert s[|head| + 1..] == tail;
  }

  /** A key followed by whitespace has no comma when the key has none. */
  lemma PaddedKeyCommaFree(key: string, w: string)
    requires ',' !in key && AllSpace(w)
    ensures ',' !in key + w
  {
    forall j | 0 <= j < |key + w| ensures (key + w)[j] != ',' {
      if j >= |key| { assert IsSpace(w[j - |key|]); }
    }
  }

  /** Whitespace on both sides of whitespace is whitespace. */
  lemma AllSpaceAppend(a: string, b: string)
    requires AllSpace(a) && AllSpace(b)
    ensures AllSpace(a + b)
  {
    forall j | 0 <= j < |a + b| ensures IsSpace((a + b)[j]) {
      if j >= |a| { assert (a + b)[j] == b[j - |a|]; } else { assert (a + b)[j] == a[j]; }
    }
  }

  /** The value part a padded line keeps once the line is stripped. */
  function PaddedTail(w3: string, value: string): string {
    if value == [] then [] else w3 + value
  }

  /** Stripping a padded line keeps the key, its trailing space, the comma
      and the space before a non-empty value. */
  lemma StripPaddedLine(w1: string, key: string, w2: string, w3: string, value: string, w4: string)
    requires AllSpace(w1) && AllSpace(w2) && AllSpace(w3) && AllSpace(w4)
    requires key != [] && Trimmed(key) && Trimmed(value)
    ensures Strip(w1 + key + w2 + [','] + w3 + value + w4) == key + w2 + [','] + PaddedTail(w3, value)
  {
    var line := w1 + key + w2 + [','] + w3 + value + w4;
    var core := key + w2 + [','] + PaddedTail(w3, value);
    if value == [] {
      assert line == w1 + core + (w3 + w4);
      AllSpaceAppend(w3, w4);
      StripPadded(w1, core, w3 + w4);
    } else {
      assert line == w1 + core + w4;
      assert core[|core| - 1] == value[|value| - 1];
      StripPadded(w1, core, w4);
    }
  }

  /** Whitespace around the line, around the key and around the value is
      dropped: a padded `key , value` line parses to the bare key and the
      reading of the bare value. */
  lemma ParsePaddedLine(w1: string, key: string, w2: string, w3: string, value: string, w4: string,
                        toFloat: string -> Option<real>)
    requires AllSpace(w1) && AllSpace(w2) && AllSpace(w3) && AllSpace(w4)
    requires key != [] && key[0] != '#' && ',' !in key && Trimmed(key) && Trimmed(value)
    ensures ParseLine(w1 + key + w2 + [','] + w3 + value + w4, toFloat) == Some((key, ParseValue(value, toFloat)))
  {
    var line := w1 + key + w2 + [','] + w3 + value + w4;
    var head, tail := key + w2, PaddedTail(w3, value);
    StripPaddedLine(w1, key, w2, w3, value, w4);
    PaddedKeyCommaFree(key, w2);
    StripPadded([], key, w2);
    assert [] + key + w2 == head;
    StripPadded(w3, value, []);
    assert Strip(tail) == value by {
      if value == [] { StripPadded([], [], []); } else { assert w3 + value + [] == tail; }
    }
    ParseSplitLine(line, head, tail, toFloat);
  }

  /** Praat's markers read as 0 in any letter case, whatever the number
      parser would say. */
  lemma UndefinedMarkersReadZero(toFloat: string -> Option<real>)
    ensures ParseValue("NaN", toFloat) == 0.0
    ensures ParseValue("-INF", toFloat) == 0.0
  {
    assert Lower("NaN") == "nan";
    assert Lower("-INF") == "-inf";
  }
}
