/**
 * The JavaScript string built-ins that the site's forms and the payment
 * webhook rely on, stated over `seq<char>`: `indexOf`, `split` on a one-
 * character separator, `Array.prototype.join`, `trim`, `includes`,
 * `toUpperCase` and the `||` default on strings.
 */
module Text {

  /** JavaScript truthiness of a string: only the empty string is falsy. */
  predicate Truthy(s: string) {
    s != ""
  }

  /** `s || fallback` for a string `s`. */
  function OrDefault(s: string, fallback: string): (r: string)
    ensures Truthy(fallback) ==> Truthy(r)
    ensures Truthy(s) ==> r == s
    ensures !Truthy(s) ==> r == fallback
  {
    if Truthy(s) then s else fallback
  }

  // ---------------------------------------------------------------------
  // indexOf, split and join
  // ---------------------------------------------------------------------

  /** Position of the first `c` in `s`. */
  function IndexOf(s: string, c: char): (k: nat)
    requires c in s
    ensures k < |s| && s[k] == c
    ensures forall j :: 0 <= j < k ==> s[j] != c
  {
    if s[0] == c then 0
    else
      assert c in s[1..] by {
        var i :| 0 <= i < |s| && s[i] == c;
        assert s[1..][i - 1] == c;
      }
      1 + IndexOf(s[1..], c)
  }

  /** `s.split(sep)` for a separator of one character. */
  function Split(s: string, sep: char): (parts: seq<string>)
    ensures |parts| >= 1
    ensures forall i :: 0 <= i < |parts| ==> sep !in parts[i]
    decreases |s|
  {
    if sep !in s then [s]
    else
      var k := IndexOf(s, sep);
      [s[..k]] + Split(s[k + 1..], sep)
  }

  /** `parts.join(sep)`. */
  function Join(parts: seq<string>, sep: char): string
  {
    if |parts| == 0 then ""
    else if |parts| == 1 then parts[0]
    else parts[0] + [sep] + Join(parts[1..], sep)
  }

  /** Joining a first part onto at least one more puts a separator between. */
  lemma JoinCons(head: string, tail: seq<string>, sep: char)
    requires |tail| >= 1
    ensures Join([head] + tail, sep) == head + [sep] + Join(tail, sep)
  {
    assert ([head] + tail)[1..] == tail;
  }

  /** Joining what `split` produced gives back the original string. */
  lemma {:induction false} JoinSplit(s: string, sep: char)
    ensures Join(Split(s, sep), sep) == s
    decreases |s|
  {
    if sep in s {
      var k := IndexOf(s, sep);
      var head, tail := s[..k], s[k + 1..];
      var rest := Split(tail, sep);
      assert Split(s, sep) == [head] + rest;
      JoinCons(head, rest, sep);
      JoinSplit(tail, sep);
      assert s == head + [sep] + tail;
    }
  }

  /** Splitting a join of separator-free parts gives the parts back. */
  lemma {:induction false} SplitJoin(parts: seq<string>, sep: char)
    requires |parts| >= 1
    requires forall i :: 0 <= i < |parts| ==> sep !in parts[i]
    ensures Split(Join(parts, sep), sep) == parts
  {
    if |parts| > 1 {
      var head, tail := parts[0], parts[1..];
      var s := Join(parts, sep);
      assert s == head + [sep] + Join(tail, sep);
      assert s[|head|] == sep;
      var k := IndexOf(s, sep);
      assert forall j :: 0 <= j < |head| ==> s[j] == head[j];
      assert k == |head|;
      assert s[..k] == head;
      assert s[k + 1..] == Join(tail, sep);
      SplitJoin(tail, sep);
    }
  }

  /** Splitting at a first line without separators peels that line off. */
  lemma SplitCons(head: string, rest: string, sep: char)
    requires sep !in head
    ensures Split(head + [sep] + rest, sep) == [head] + Split(rest, sep)
  {
    var s := head + [sep] + rest;
    assert s[|head|] == sep;
    var k := IndexOf(s, sep);
    assert forall j :: 0 <= j < |head| ==> s[j] == head[j];
    assert k == |head|;
    assert s[..k] == head;
    assert s[k + 1..] == rest;
  }

  /** Joining two non-empty lists of parts joins the two joins. */
  lemma {:induction false} JoinAppend(a: seq<string>, b: seq<string>, sep: char)
    requires |a| >= 1 && |b| >= 1
    ensures Join(a + b, sep) == Join(a, sep) + [sep] + Join(b, sep)
  {
    if |a| > 1 {
      assert (a + b)[1..] == a[1..] + b;
      JoinAppend(a[1..], b, sep);
    } else {
      assert (a + b)[1..] == b;
    }
  }

  /** Joining a list of at least two lines peels off the first line and a break. */
  lemma JoinFirst(l: seq<string>)
    requires |l| >= 2
    ensures Join(l, '\n') == l[0] + "\n" + Join(l[1..], '\n')
  {
  }

  /** A line break in a concatenation comes from one of its parts. */
  lemma UnbrokenConcat(a: string, b: string)
    requires '\n' !in a && '\n' !in b
    ensures '\n' !in a + b
  {
    assert forall i :: 0 <= i < |a + b| ==> (a + b)[i] == if i < |a| then a[i] else b[i - |a|];
  }

  /** Equal strings with equal captions have equal values. */
  lemma CaptionCancel(caption: string, x: string, y: string)
    requires caption + x == caption + y
    ensures x == y
  {
    assert x == (caption + x)[|caption|..];
    assert y == (caption + y)[|caption|..];
  }

  /** A prefix of a string up to its first separator holds no separator. */
  lemma BeforeFirst(s: string, sep: char)
    requires sep in s
    ensures sep !in s[..IndexOf(s, sep)]
    ensures s == s[..IndexOf(s, sep)] + [sep] + s[IndexOf(s, sep) + 1..]
  {
    var k := IndexOf(s, sep);
    assert forall j :: 0 <= j < k ==> s[..k][j] == s[j];
  }

  /** Regrouping three pieces around two separators. */
  lemma RegroupSeparators(head: string, tail: string, b: string, sep: char)
    ensures (head + [sep] + tail) + [sep] + b == head + [sep] + (tail + [sep] + b)
  {
  }

  /** One step of `SplitAppendSep`: a first line without separators. */
  lemma SplitAppendSepStep(head: string, tail: string, b: string, sep: char)
    requires sep !in head
    requires Split(tail + [sep] + b, sep) == Split(tail, sep) + Split(b, sep)
    ensures Split(head + [sep] + (tail + [sep] + b), sep) == Split(head + [sep] + tail, sep) + Split(b, sep)
  {
    SplitCons(head, tail + [sep] + b, sep);
    SplitCons(head, tail, sep);
  }

  /** Splitting at a separator splits each side on its own. */
  lemma {:induction false} SplitAppendSep(a: string, b: string, sep: char)
    ensures Split(a + [sep] + b, sep) == Split(a, sep) + Split(b, sep)
    decreases |a|
  {
    if sep !in a {
      SplitCons(a, b, sep);
    } else {
      var k := IndexOf(a, sep);
      BeforeFirst(a, sep);
      SplitAppendSep(a[k + 1..], b, sep);
      RegroupSeparators(a[..k], a[k + 1..], b, sep);
      SplitAppendSepStep(a[..k], a[k + 1..], b, sep);
    }
  }

  /** A caption without separators joins the first line of what follows it. */
  lemma SplitCaption(caption: string, s: string, sep: char)
    requires sep !in caption
    ensures Split(caption + s, sep) == [caption + Split(s, sep)[0]] + Split(s, sep)[1..]
  {
    if sep !in s {
      assert forall i :: 0 <= i < |caption + s| ==> (caption + s)[i] == if i < |caption| then caption[i] else s[i - |caption|];
    } else {
      var k := IndexOf(s, sep);
      var head, tail := s[..k], s[k + 1..];
      BeforeFirst(s, sep);
      assert caption + s == (caption + head) + [sep] + tail;
      assert forall i :: 0 <= i < |caption + head| ==>
        (caption + head)[i] == if i < |caption| then caption[i] else head[i - |caption|];
      SplitCons(caption + head, tail, sep);
      SplitCons(head, tail, sep);
    }
  }

  /** The lines of each string of a list, one string after the other. */
  function SplitAll(parts: seq<string>, sep: char): (r: seq<string>)
    ensures |r| >= |parts|
  {
    if parts == [] then [] else Split(parts[0], sep) + SplitAll(parts[1..], sep)
  }

  /** Splitting a join splits every part, whatever separators the parts hold. */
  lemma {:induction false} SplitJoinAll(parts: seq<string>, sep: char)
    requires |parts| >= 1
    ensures Split(Join(parts, sep), sep) == SplitAll(parts, sep)
  {
    if |parts| == 1 {
      assert parts[1..] == [];
    } else {
      SplitAppendSep(parts[0], Join(parts[1..], sep), sep);
      SplitJoinAll(parts[1..], sep);
    }
  }

  /** `SplitAll` of a concatenation. */
  lemma {:induction false} SplitAllAppend(a: seq<string>, b: seq<string>, sep: char)
    ensures SplitAll(a + b, sep) == SplitAll(a, sep) + SplitAll(b, sep)
  {
    if a == [] {
      assert a + b == b;
    } else {
      assert (a + b)[1..] == a[1..] + b;
      SplitAllAppend(a[1..], b, sep);
    }
  }

  /** Parts without separators are their own lines. */
  lemma {:induction false} SplitAllUnbroken(parts: seq<string>, sep: char)
    requires forall i :: 0 <= i < |parts| ==> sep !in parts[i]
    ensures SplitAll(parts, sep) == parts
  {
    if parts != [] {
      SplitAllUnbroken(parts[1..], sep);
    }
  }

  /** One part, however many lines it holds. */
  lemma SplitAllSingle(x: string, sep: char)
    ensures SplitAll([x], sep) == Split(x, sep)
  {
    assert [x][1..] == [];
  }

  /** The lines of a list are those of its three pieces, one after the other. */
  lemma SplitAllAround(l: seq<string>, i: nat, sep: char)
    requires i < |l|
    ensures SplitAll(l, sep) == SplitAll(l[..i], sep) + Split(l[i], sep) + SplitAll(l[i + 1..], sep)
  {
    assert l == l[..i] + [l[i]] + l[i + 1..];
    SplitAllAppend(l[..i] + [l[i]], l[i + 1..], sep);
    SplitAllAppend(l[..i], [l[i]], sep);
    SplitAllSingle(l[i], sep);
  }

  /** Parts without separators, on either side of a part that may hold some. */
  lemma UnbrokenAround(l: seq<string>, i: nat, sep: char)
    requires i < |l|
    requires forall j :: 0 <= j < |l| && j != i ==> sep !in l[j]
    ensures SplitAll(l[..i], sep) == l[..i] && SplitAll(l[i + 1..], sep) == l[i + 1..]
  {
    assert forall j :: 0 <= j < i ==> l[..i][j] == l[j];
    SplitAllUnbroken(l[..i], sep);
    assert forall j :: i + 1 <= j < |l| ==> l[i + 1..][j - i - 1] == l[j];
    SplitAllUnbroken(l[i + 1..], sep);
  }

  /**
   * Splitting a join where one part, a caption and a value, may hold
   * separators: the value's first line stays with its caption and its other
   * lines follow.
   */
  lemma SplitJoinAround(l: seq<string>, i: nat, caption: string, value: string, sep: char)
    requires i < |l| && l[i] == caption + value && sep !in caption
    requires forall j :: 0 <= j < |l| && j != i ==> sep !in l[j]
    ensures Split(Join(l, sep), sep)
         == l[..i] + [caption + Split(value, sep)[0]] + Split(value, sep)[1..] + l[i + 1..]
  {
    SplitJoinAll(l, sep);
    SplitAllAround(l, i, sep);
    UnbrokenAround(l, i, sep);
    SplitCaption(caption, value, sep);
  }

  /** With a value of one line, the pieces around it put the list back together. */
  lemma AroundUnbroken(l: seq<string>, i: nat, caption: string, value: string, sep: char)
    requires i < |l| && l[i] == caption + value && sep !in value
    ensures l[..i] + [caption + Split(value, sep)[0]] + Split(value, sep)[1..] + l[i + 1..] == l
  {
    assert Split(value, sep) == [value];
    assert l == l[..i] + [l[i]] + l[i + 1..];
  }

  /**
   * The name split both enquiry modals send: `name.split(' ')[0]` as the
   * first name and `name.split(' ').slice(1).join(' ')` as the last name.
   * The first name is everything before the first space; the last name is
   * everything after it, or empty when there is no space.
   */
  function SplitName(name: string): (r: (string, string))
    ensures ' ' !in r.0 && |r.0| <= |name| && r.0 == name[..|r.0|]
    ensures ' ' in name ==> name == r.0 + " " + r.1
    ensures ' ' !in name ==> r.0 == name && r.1 == ""
  {
    var parts := Split(name, ' ');
    var first, last := parts[0], Join(parts[1..], ' ');
    if ' ' in name then
      var k := IndexOf(name, ' ');
      JoinSplit(name[k + 1..], ' ');
      assert name == name[..k] + " " + name[k + 1..];
      (first, last)
    else (first, last)
  }

  // ---------------------------------------------------------------------
  // trim
  // ---------------------------------------------------------------------

  /** The white-space and line-terminator characters `String.prototype.trim` removes. */
  predicate IsWhiteSpace(c: char) {
    || c == '\t' || c == '\n' || c == '\U{000B}' || c == '\U{000C}' || c == '\r'
    || c == ' ' || c == '\U{00A0}' || c == '\U{1680}'
    || ('\U{2000}' <= c <= '\U{200A}')
    || c == '\U{2028}' || c == '\U{2029}' || c == '\U{202F}' || c == '\U{205F}'
    || c == '\U{3000}' || c == '\U{FEFF}'
  }

  /** `s` with its leading white space removed. */
  function TrimStart(s: string): (r: string)
    ensures |r| <= |s| && r == s[|s| - |r|..]
    ensures forall i :: 0 <= i < |s| - |r| ==> IsWhiteSpace(s[i])
    ensures r == "" || !IsWhiteSpace(r[0])
  {
    if s != "" && IsWhiteSpace(s[0]) then TrimStart(s[1..]) else s
  }

  /** `s` with its trailing white space removed. */
  function TrimEnd(s: string): (r: string)
    ensures |r| <= |s| && r == s[..|r|]
    ensures forall i :: |r| <= i < |s| ==> IsWhiteSpace(s[i])
    ensures r == "" || !IsWhiteSpace(r[|r| - 1])
  {
    if s != "" && IsWhiteSpace(s[|s| - 1]) then TrimEnd(s[..|s| - 1]) else s
  }

  /** `s.trim()`. */
  function Trim(s: string): string {
    TrimEnd(TrimStart(s))
  }

  /** A string is blank (`!s.trim()`) iff every one of its characters is white space. */
  lemma TrimEmptyIff(s: string)
    ensures Trim(s) == "" <==> forall i :: 0 <= i < |s| ==> IsWhiteSpace(s[i])
  {
    var t := TrimStart(s);
    if Trim(s) == "" {
      assert t == "";
    } else {
      assert !IsWhiteSpace(Trim(s)[0]);
      assert Trim(s)[0] == s[|s| - |t|];
    }
  }

  // ---------------------------------------------------------------------
  // includes
  // ---------------------------------------------------------------------

  /** `t` occurs in `s` starting at position `i`. */
  ghost predicate OccursAt(t: string, s: string, i: int) {
    0 <= i <= |s| - |t| && s[i..i + |t|] == t
  }

  /** `s.includes(t)`, searching from the front. */
  function Includes(s: string, t: string): bool
  {
    if t <= s then true
    else if s == "" then false
    else Includes(s[1..], t)
  }

  /** `Includes` finds `t` exactly when `t` occurs somewhere in `s`. */
  lemma {:induction false} IncludesIff(s: string, t: string)
    ensures Includes(s, t) <==> exists i :: OccursAt(t, s, i)
  {
    if t <= s {
      assert OccursAt(t, s, 0);
    } else if s != "" {
      IncludesIff(s[1..], t);
      if Includes(s[1..], t) {
        var i :| OccursAt(t, s[1..], i);
        assert s[i + 1..i + 1 + |t|] == s[1..][i..i + |t|];
        assert OccursAt(t, s, i + 1);
      } else {
        forall i | 0 <= i <= |s| - |t| ensures !OccursAt(t, s, i) {
          if i > 0 {
            assert s[i..i + |t|] == s[1..][i - 1..i - 1 + |t|];
            assert !OccursAt(t, s[1..], i - 1);
          } else {
            assert s[..|t|] == s[0..0 + |t|];
          }
        }
      }
    }
  }

  // ---------------------------------------------------------------------
  // toUpperCase
  // ---------------------------------------------------------------------

  predicate IsLowerAscii(c: char) {
    'a' <= c <= 'z'
  }

  function UpperAscii(c: char): char {
    if IsLowerAscii(c) then (c as int - 32) as char else c
  }

  /** `s.toUpperCase()` on the ASCII letters; every other character is kept. */
  function ToUpperCase(s: string): (r: string)
    ensures |r| == |s|
    ensures forall i :: 0 <= i < |s| ==> !IsLowerAscii(r[i])
    ensures forall i :: 0 <= i < |s| && !IsLowerAscii(s[i]) ==> r[i] == s[i]
    ensures forall i :: 0 <= i < |s| && IsLowerAscii(s[i]) ==> r[i] as int == s[i] as int - 32
  {
    seq(|s|, i requires 0 <= i < |s| => UpperAscii(s[i]))
  }
}
