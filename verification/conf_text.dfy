/** The text handling of the configuration loader: what `removeComments` and
    `trim` do to the line buffer `fgets` fills (in place, on an array), the
    whitespace trim they are meant to compute, and the `strtok` split of a
    line into key and value. */
module ConfText {
  import opened CLib

  /** The string without its trailing white space. */
  function TrimRight(s: string): (r: string)
    ensures |r| <= |s| && r == s[..|r|]
    ensures r == [] || !IsSpace(r[|r| - 1])
    ensures forall k :: |r| <= k < |s| ==> IsSpace(s[k])
  {
    if s == [] || !IsSpace(s[|s| - 1]) then s else TrimRight(s[..|s| - 1])
  }

  /** The string without white space at either end: it brings no character
      of its own. */
  function Trim(s: string): (r: string)
    ensures |r| <= |s|
    ensures r == [] || (!IsSpace(r[0]) && !IsSpace(r[|r| - 1]))
    ensures forall c :: c in r ==> c in s
  {
    SkipSpaces(TrimRight(s))
  }

  lemma {:induction false} TrimRightAt(s: string, j: nat)
    requires j <= |s| && forall k :: j <= k < |s| ==> IsSpace(s[k])
    requires j == 0 || !IsSpace(s[j - 1])
    ensures TrimRight(s) == s[..j]
    decreases |s| - j
  {
    if j < |s| {
      assert s[..|s| - 1][..j] == s[..j];
      TrimRightAt(s[..|s| - 1], j);
    }
  }

  lemma {:induction false} SkipSpacesAt(s: string, i: nat)
    requires i <= |s| && forall k :: 0 <= k < i ==> IsSpace(s[k])
    requires i == |s| || !IsSpace(s[i])
    ensures SkipSpaces(s) == s[i..]
  {
    if i > 0 {
      assert s[1..][i - 1..] == s[i..];
      SkipSpacesAt(s[1..], i - 1);
    }
  }

  /** Trim is the unique infix whose margins are white space and whose ends
      are not: a definition independent of how the two passes compute it. */
  lemma TrimAt(s: string, i: nat, j: nat)
    requires i <= j <= |s|
    requires forall k :: 0 <= k < i ==> IsSpace(s[k])
    requires forall k :: j <= k < |s| ==> IsSpace(s[k])
    requires i < j ==> !IsSpace(s[i]) && !IsSpace(s[j - 1])
    ensures Trim(s) == s[i..j]
  {
    if i == j {
      TrimRightAt(s, 0);
    } else {
      TrimRightAt(s, j);
      SkipSpacesAt(s[..j], i);
    }
  }

  /** Trimming twice is trimming once; a blank string trims to nothing. */
  lemma TrimIdempotent(s: string)
    ensures Trim(Trim(s)) == Trim(s)
    ensures (forall k :: 0 <= k < |s| ==> IsSpace(s[k])) ==> Trim(s) == []
  {
    var t := Trim(s);
    TrimAt(t, 0, |t|);
    if forall k :: 0 <= k < |s| ==> IsSpace(s[k]) {
      TrimAt(s, 0, 0);
    }
  }

  /** `memmove(b, &b[st], len - st)` followed by `b[len - st] = '\0'`. */
  function MoveToFront(b: seq<char>, st: nat, len: nat): (r: seq<char>)
    requires st <= len < |b|
    ensures |r| == |b| && r[len - st] == NUL
    ensures forall k :: 0 <= k < len - st ==> r[k] == b[st + k]
    ensures forall k :: len - st < k < |b| ==> r[k] == b[k]
  {
    (b[st..len] + b[len - st..])[len - st := NUL]
  }

  /** Where the right-trim pass of `trim` puts the new terminator. */
  function TrimEnd(b: seq<char>): (e: nat)
    requires NUL in b
    ensures e <= CLen(b)
  {
    |TrimRight(b[..CLen(b)])|
  }

  /** How many blanks the left-trim pass of `trim` counts. */
  function TrimStart(b: seq<char>): (st: nat)
    requires NUL in b
    ensures st <= TrimEnd(b)
  {
    TrimEnd(b) - |SkipSpaces(b[..TrimEnd(b)])|
  }

  /** The buffer `trim` leaves behind, step by step as the C code takes it:
      cut at the last non-blank, count the leading blanks, move the
      characters after them to the front and terminate. The buffer keeps
      its size and still holds a terminator. */
  function TrimBuffer(b: seq<char>): (r: seq<char>)
    requires NUL in b
    ensures |r| == |b| && NUL in r
  {
    if CLen(b) == 0 then b
    else MoveToFront(b[TrimEnd(b) := NUL], TrimStart(b), CLen(b))
  }

  /** Where the two passes of `trim` stop: the trimmed string is the slice
      between them, free of terminators. */
  lemma TrimBounds(b: seq<char>) returns (e: nat, st: nat)
    requires NUL in b && CLen(b) > 0
    ensures st <= e <= CLen(b) && e == TrimEnd(b) && st == TrimStart(b)
    ensures Trim(CStr(b)) == b[st..e] && NUL !in b[st..e]
  {
    var s := b[..CLen(b)];
    assert CStr(b) == s;
    e := |TrimRight(s)|;
    assert b[..e] == TrimRight(s);
    st := e - |SkipSpaces(b[..e])|;
    assert SkipSpaces(b[..e]) == b[st..e];
    assert b[st..e] == s[st..e];
  }

  /** Moving a terminated slice to the front leaves exactly that slice as the C string. */
  lemma MovedSliceIsCStr(b: seq<char>, st: nat, e: nat, len: nat)
    requires st <= e <= len < |b| && b[e] == NUL && NUL !in b[st..e]
    ensures CStr(MoveToFront(b, st, len)) == b[st..e]
  {
    var r := MoveToFront(b, st, len);
    assert r[..e - st] == b[st..e];
    TakeUntilAt(r, NUL, e - st);
  }

  /** `trim` does what it is named for: the C string it leaves is the trimmed
      C string, and nothing past the old terminator is touched. */
  lemma TrimBufferHoldsTrim(b: seq<char>)
    requires NUL in b
    ensures |TrimBuffer(b)| == |b|
    ensures CStr(TrimBuffer(b)) == Trim(CStr(b))
    ensures forall k :: CLen(b) < k < |b| ==> TrimBuffer(b)[k] == b[k]
  {
    if CLen(b) == 0 {
      assert CStr(b) == [];
    } else {
      var e, st := TrimBounds(b);
      var b1 := b[e := NUL];
      assert b1[st..e] == b[st..e];
      MovedSliceIsCStr(b1, st, e, CLen(b));
    }
  }

  /** `removeComments`: every '#' before the terminator becomes a NUL. */
  method RemoveComments(a: array<char>)
    requires NUL in a[..]
    modifies a
    ensures forall k :: 0 <= k < a.Length ==>
      a[k] == if k < CLen(old(a[..])) && old(a[k]) == '#' then NUL else old(a[k])
    ensures CStr(a[..]) == TakeUntil(CStr(old(a[..])), '#')
  {
    ghost var len := CLen(a[..]);
    var i := 0;
    while a[i] != NUL
      invariant 0 <= i <= len
      invariant forall k :: 0 <= k < i ==> a[k] == if old(a[k]) == '#' then NUL else old(a[k])
      invariant forall k :: i <= k < a.Length ==> a[k] == old(a[k])
      decreases len - i
    {
      if a[i] == '#' {
        a[i] := NUL;
      }
      i := i + 1;
    }
    CommentsCut(old(a[..]), a[..]);
  }

  /** Blanking every '#' of the C string cuts the string at its first '#'. */
  lemma CommentsCut(before: seq<char>, after: seq<char>)
    requires NUL in before && |after| == |before|
    requires forall k :: 0 <= k < |after| ==>
      after[k] == if k < CLen(before) && before[k] == '#' then NUL else before[k]
    ensures CStr(after) == TakeUntil(CStr(before), '#')
  {
    var s := before[..CLen(before)];
    assert CStr(before) == s;
    var p := |TakeUntil(s, '#')|;
    assert after[..p] == s[..p];
    TakeUntilAt(after, NUL, p);
  }

  /** `memmove(a, &a[src], n)`: the `n` characters at `src` move to the front
      (copying forwards is safe because `src` is never behind the target). */
  method MemMove(a: array<char>, src: nat, n: nat)
    requires src + n <= a.Length
    modifies a
    ensures a[..] == old(a[..])[src..src + n] + old(a[..])[n..]
  {
    var k := 0;
    while k < n
      invariant 0 <= k <= n
      invariant forall j :: 0 <= j < k ==> a[j] == old(a[src + j])
      invariant forall j :: k <= j < a.Length ==> a[j] == old(a[j])
    {
      a[k] := a[src + k];
      k := k + 1;
    }
    assert a[..] == old(a[..])[src..src + n] + old(a[..])[n..];
  }

  /** The right-trim loop of `trim`: the index just past the last non-blank
      of the first `len` characters. */
  method TrailingCut(a: array<char>, len: nat) returns (e: nat)
    requires len <= a.Length
    ensures e == |TrimRight(a[..len])|
  {
    var i: int := len - 1;
    while i >= 0 && IsSpace(a[i])
      invariant -1 <= i < len
      invariant TrimRight(a[..len]) == TrimRight(a[..i + 1])
    {
      assert a[..i + 1][..i] == a[..i];
      i := i - 1;
    }
    e := i + 1;
  }

  /** The left-trim loop of `trim`: how many blanks open the C string that
      ends at `e`. */
  method LeadingBlanks(a: array<char>, e: nat) returns (st: nat)
    requires e < a.Length && a[e] == NUL && NUL !in a[..e]
    ensures st == e - |SkipSpaces(a[..e])|
  {
    st := 0;
    while a[st] != NUL && IsSpace(a[st])
      invariant st <= e
      invariant SkipSpaces(a[..e]) == SkipSpaces(a[st..e])
      decreases e - st
    {
      assert a[st..e][1..] == a[st + 1..e];
      st := st + 1;
    }
    assert st < e ==> a[st] == a[..e][st];
    assert SkipSpaces(a[st..e]) == a[st..e];
  }

  /** The last two statements of `trim`: the move and the new terminator. */
  method ShiftDown(a: array<char>, st: nat, len: nat)
    requires st <= len < a.Length
    modifies a
    ensures a[..] == MoveToFront(old(a[..]), st, len)
  {
    MemMove(a, st, len - st);
    ghost var moved := a[..];
    a[len - st] := NUL;
    assert a[..] == moved[len - st := NUL];
  }

  /** `trim`, proved against `TrimBuffer`. */
  method TrimInPlace(a: array<char>)
    requires NUL in a[..]
    modifies a
    ensures a[..] == TrimBuffer(old(a[..]))
  {
    var len := CLen(a[..]);
    if len == 0 {
      return;
    }
    ghost var b := a[..];
    var e := TrailingCut(a, len);
    assert e == TrimEnd(b);
    a[e] := NUL;
    assert a[..e] == b[..len][..e];
    var st := LeadingBlanks(a, e);
    assert st == TrimStart(b);
    assert a[..] == b[TrimEnd(b) := NUL];
    ShiftDown(a, st, len);
  }

  /** A line as `logger_configure` hands it to `parseLine`: the C string
      `fgets` read, cut at the first '#', trimmed: it holds no comment
      character and no terminator, and neither starts nor ends in a blank. */
  function CleanLine(chunk: string): (r: string)
    ensures '#' !in r && NUL !in r
    ensures r == [] || (!IsSpace(r[0]) && !IsSpace(r[|r| - 1]))
  {
    var text := TakeUntil(chunk, NUL);
    var cut := TakeUntil(text, '#');
    assert NUL !in cut by {
      assert cut == text[..|cut|];
    }
    Trim(cut)
  }

  /** Text before a '#' survives both cuts whole, and nothing from the '#' on does. */
  lemma CommentCut(text: string, comment: string)
    requires NUL !in text && '#' !in text
    requires comment != [] && comment[0] == '#'
    ensures TakeUntil(TakeUntil(text + comment, NUL), '#') == text
  {
    var r := TakeUntil(comment, NUL);
    TakeUntilAppend(text, comment, NUL);
    assert r != [] && r[0] == '#';
    TakeUntilAt(r, '#', 0);
    TakeUntilAppend(text, r, '#');
  }

  /** A chunk followed by the terminator `fgets` adds reads back as the chunk's C string. */
  lemma CStrOfTerminated(chunk: string)
    ensures NUL in chunk + [NUL]
    ensures CStr(chunk + [NUL]) == TakeUntil(chunk, NUL)
  {
    var j := |TakeUntil(chunk, NUL)|;
    assert (chunk + [NUL])[..j] == chunk[..j];
    TakeUntilAt(chunk + [NUL], NUL, j);
  }

  /** The run of '=' characters `strtok` skips before a token. */
  function SkipDelims(s: string): (r: string)
    ensures |r| <= |s|
    ensures r == [] || r[0] != '='
  {
    if s != [] && s[0] == '=' then SkipDelims(s[1..]) else s
  }

  /** One `strtok(_, "=")` call: the token (NULL when only delimiters are
      left) and where the next call resumes. */
  datatype Token = Token(text: Option<string>, rest: string)

  function Strtok(s: string): (t: Token)
    ensures t.text.Some? ==> t.text.value != [] && '=' !in t.text.value
    ensures t.text.None? ==> t.rest == []
  {
    var u := SkipDelims(s);
    if u == [] then Token(None, [])
    else
      var tok := TakeUntil(u, '=');
      Token(Some(tok), if |tok| < |u| then u[|tok| + 1..] else [])
  }

  /** `key = strtok(line, "="); val = strtok(NULL, "=")`: there is no value
      without a key, and both are non-empty and free of '='. */
  function SplitKeyValue(line: string): (kv: (Option<string>, Option<string>))
    ensures kv.0.None? ==> kv.1.None?
    ensures kv.0.Some? ==> kv.0.value != [] && '=' !in kv.0.value
    ensures kv.1.Some? ==> kv.1.value != [] && '=' !in kv.1.value
  {
    var first := Strtok(line);
    (first.text, Strtok(first.rest).text)
  }

  /** Splitting undoes joining a key and a value with '=', and a line with no
      '=' is all key and no value. */
  lemma SplitJoin(key: string, val: string)
    requires key != [] && '=' !in key
    ensures SplitKeyValue(key + "=" + val).0 == Some(key)
    ensures '=' !in val && val != [] ==> SplitKeyValue(key + "=" + val) == (Some(key), Some(val))
    ensures SplitKeyValue(key) == (Some(key), None)
  {
    var line := key + "=" + val;
    assert line[0] == key[0];
    assert line[..|key|] == key;
    TakeUntilAt(line, '=', |key|);
    assert line[|key| + 1..] == val;
    if '=' !in val && val != [] {
      assert SkipDelims(val) == val;
    }
  }
}
