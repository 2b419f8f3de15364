/** The path sanitizer (sdk/pathsafe.go), byte by byte, with the lexical part of
    Go's filepath.Join and filepath.Clean for slash-separated paths. */
module PathSafe {
  import opened Lines

  const SLASH: Byte := 47
  const BACKSLASH: Byte := 92
  const DOT: Byte := 46
  const SPACE: Byte := 32
  const PERCENT: Byte := 37

  // --------------------------------------------------------------- components

  /** `isIllegalSDKPathByte`: < > : " | ? * / \ and control bytes. */
  predicate IsIllegal(c: Byte) {
    c == 60 || c == 62 || c == 58 || c == 34 || c == 124 || c == 63 || c == 42 || c == SLASH || c == BACKSLASH || c < 32
  }

  function HexDigit(n: Byte): Byte
    requires n < 16
  {
    if n < 10 then 48 + n else 55 + n
  }

  /** The format "%%%02X". */
  function Escape(c: Byte): Bytes { [PERCENT, HexDigit(c / 16), HexDigit(c % 16)] }

  function EscapeAll(raw: Bytes): Bytes {
    if raw == [] then []
    else EscapeAll(raw[..|raw| - 1]) + (if IsIllegal(raw[|raw| - 1]) then Escape(raw[|raw| - 1]) else [raw[|raw| - 1]])
  }

  function EscapeLast(out: Bytes): Bytes {
    if out != [] && (out[|out| - 1] == DOT || out[|out| - 1] == SPACE)
    then out[..|out| - 1] + Escape(out[|out| - 1])
    else out
  }

  function EscapeFirst(out: Bytes): Bytes {
    if IsReserved(out) && out != [] then Escape(out[0]) + out[1..] else out
  }

  function Upper(c: Byte): Byte { if 97 <= c <= 122 then c - 32 else c }

  /** The part before the first dot. */
  function Stem(name: Bytes): Bytes {
    if name == [] || name[0] == DOT then [] else [name[0]] + Stem(name[1..])
  }

  predicate Spells(stem: Bytes, a: Byte, b: Byte, c: Byte) {
    |stem| >= 3 && Upper(stem[0]) == a && Upper(stem[1]) == b && Upper(stem[2]) == c
  }

  /** CON, PRN, AUX, NUL, COM1 to COM9 and LPT1 to LPT9, in any case. */
  predicate IsDevice(stem: Bytes) {
    || (|stem| == 3 && (Spells(stem, 67, 79, 78) || Spells(stem, 80, 82, 78)
                        || Spells(stem, 65, 85, 88) || Spells(stem, 78, 85, 76)))
    || (|stem| == 4 && 49 <= stem[3] <= 57 && (Spells(stem, 67, 79, 77) || Spells(stem, 76, 80, 84)))
  }

  predicate IsReserved(name: Bytes) { IsDevice(Stem(name)) }

  function Sanitize(raw: Bytes): Bytes {
    if raw == [] then raw else EscapeFirst(EscapeLast(EscapeAll(raw)))
  }

  method SanitizePathComponent(raw: Bytes) returns (out: Bytes)
    ensures out == Sanitize(raw)
  {
    if raw == [] { return raw; }
    out := [];
    for i := 0 to |raw|
      invariant out == EscapeAll(raw[..i])
    {
      var c := raw[i];
      assert raw[..i + 1][..i] == raw[..i];
      if IsIllegal(c) {
        out := out + Escape(c);
      } else {
        out := out + [c];
      }
    }
    assert raw[..|raw|] == raw;
    var n := |out|;
    if n > 0 && (out[n - 1] == DOT || out[n - 1] == SPACE) {
      out := out[..n - 1] + Escape(out[n - 1]);
    }
    var reserved := IsReservedStem(out);
    if reserved && out != [] {
      out := Escape(out[0]) + out[1..];
    }
  }

  method IsReservedStem(name: Bytes) returns (r: bool)
    ensures r == IsReserved(name)
  {
    var i := 0;
    while i < |name| && name[i] != DOT
      invariant i <= |name| && forall j :: 0 <= j < i ==> name[j] != DOT
    {
      i := i + 1;
    }
    StemIs(name, i);
    r := IsDevice(name[..i]);
  }

  lemma {:induction false} StemIs(name: Bytes, i: nat)
    requires i <= |name| && (i < |name| ==> name[i] == DOT) && forall j :: 0 <= j < i ==> name[j] != DOT
    ensures Stem(name) == name[..i]
  {
    if i > 0 {
      StemIs(name[1..], i - 1);
      assert name[..i] == [name[0]] + name[1..][..i - 1];
    }
  }

  function Letter(c: Byte): char { c as int as char }

  /** The bytes no component may hold, as characters. */
  lemma IllegalAre(c: Byte)
    ensures IsIllegal(c) <==> c < 32 || Letter(c) in {'<', '>', ':', '\"', '|', '?', '*', '/', '\\'}
  {
  }

  /** Spelled like the name, in any case. */
  predicate Reads(stem: Bytes, name: string) {
    |stem| == |name| && forall i :: 0 <= i < |stem| ==> Letter(stem[i]) == name[i] || (97 <= stem[i] <= 122 && Letter(stem[i] - 32) == name[i])
  }

  const DEVICES := {"CON", "PRN", "AUX", "NUL", "COM1", "COM2", "COM3", "COM4", "COM5", "COM6", "COM7", "COM8", "COM9",
                    "LPT1", "LPT2", "LPT3", "LPT4", "LPT5", "LPT6", "LPT7", "LPT8", "LPT9"}

  /** The reserved names, spelled out. */
  lemma {:induction false} DevicesAre(stem: Bytes)
    ensures IsDevice(stem) <==> exists name :: name in DEVICES && Reads(stem, name)
  {
    if IsDevice(stem) { var name := DeviceName(stem); }
    forall name | name in DEVICES && Reads(stem, name) ensures IsDevice(stem) { NameIsDevice(stem, name); }
  }

  lemma {:induction false} DeviceName(stem: Bytes) returns (name: string)
    requires IsDevice(stem)
    ensures name in DEVICES && Reads(stem, name)
  {
    if |stem| == 3 {
      name := if Spells(stem, 67, 79, 78) then "CON" else if Spells(stem, 80, 82, 78) then "PRN"
              else if Spells(stem, 65, 85, 88) then "AUX" else "NUL";
    } else {
      name := (if Spells(stem, 67, 79, 77) then "COM" else "LPT") + [Letter(stem[3])];
      NumberedDevice(name, stem[3]);
    }
  }

  lemma NumberedDevice(name: string, d: Byte)
    requires 49 <= d <= 57 && (name == "COM" + [Letter(d)] || name == "LPT" + [Letter(d)])
    ensures name in DEVICES
  {
    if d == 49 { assert name == "COM1" || name == "LPT1"; }
    if d == 50 { assert name == "COM2" || name == "LPT2"; }
    if d == 51 { assert name == "COM3" || name == "LPT3"; }
    if d == 52 { assert name == "COM4" || name == "LPT4"; }
    if d == 53 { assert name == "COM5" || name == "LPT5"; }
    if d == 54 { assert name == "COM6" || name == "LPT6"; }
    if d == 55 { assert name == "COM7" || name == "LPT7"; }
    if d == 56 { assert name == "COM8" || name == "LPT8"; }
    if d == 57 { assert name == "COM9" || name == "LPT9"; }
  }

  lemma {:induction false} NameIsDevice(stem: Bytes, name: string)
    requires name in DEVICES && Reads(stem, name)
    ensures IsDevice(stem)
  {
    assert |name| == 3 || |name| == 4;
    forall i | 0 <= i < |stem| ensures 65 <= name[i] as int <= 90 ==> Upper(stem[i]) as int == name[i] as int
                               ensures 48 <= name[i] as int <= 57 ==> stem[i] as int == name[i] as int
    {
    }
  }

  /** Fit to be one component: no separator or other illegal byte, no trailing dot
      or space, no device name. */
  ghost predicate Safe(name: Bytes) {
    && (forall i :: 0 <= i < |name| ==> !IsIllegal(name[i]))
    && (name != [] ==> name[|name| - 1] != DOT && name[|name| - 1] != SPACE)
    && !IsReserved(name)
  }

  lemma {:induction false} EscapeIsLegal(c: Byte)
    ensures forall i :: 0 <= i < 3 ==> !IsIllegal(Escape(c)[i])
    ensures Escape(c)[2] != DOT && Escape(c)[2] != SPACE
  {
  }

  lemma {:induction false} EscapeAllIsLegal(raw: Bytes)
    ensures forall i :: 0 <= i < |EscapeAll(raw)| ==> !IsIllegal(EscapeAll(raw)[i])
    ensures raw != [] ==> EscapeAll(raw) != []
  {
    if raw != [] {
      EscapeAllIsLegal(raw[..|raw| - 1]);
      EscapeIsLegal(raw[|raw| - 1]);
    }
  }

  lemma {:induction false} LegalIsKept(raw: Bytes)
    requires forall i :: 0 <= i < |raw| ==> !IsIllegal(raw[i])
    ensures EscapeAll(raw) == raw
  {
    if raw != [] {
      LegalIsKept(raw[..|raw| - 1]);
      assert raw == raw[..|raw| - 1] + [raw[|raw| - 1]];
    }
  }

  lemma {:induction false} StemIsPrefix(name: Bytes)
    ensures Stem(name) <= name
  {
    if name != [] && name[0] != DOT { StemIsPrefix(name[1..]); }
  }

  /** Every component comes out safe, and non-empty exactly when it went in
      non-empty. */
  lemma {:induction false} SanitizedIsSafe(raw: Bytes)
    ensures Safe(Sanitize(raw)) && (Sanitize(raw) == [] <==> raw == [])
  {
    if raw != [] {
      EscapeAllIsLegal(raw);
      LastEscaped(EscapeAll(raw));
      FirstEscapedIsSafe(EscapeLast(EscapeAll(raw)));
    }
  }

  lemma {:induction false} LastEscaped(a: Bytes)
    requires a != [] && forall i :: 0 <= i < |a| ==> !IsIllegal(a[i])
    ensures var b := EscapeLast(a);
            && b != [] && b[|b| - 1] != DOT && b[|b| - 1] != SPACE
            && forall i :: 0 <= i < |b| ==> !IsIllegal(b[i])
  {
    EscapeIsLegal(a[|a| - 1]);
  }

  lemma {:induction false} FirstEscapedIsSafe(b: Bytes)
    requires b != [] && b[|b| - 1] != DOT && b[|b| - 1] != SPACE && forall i :: 0 <= i < |b| ==> !IsIllegal(b[i])
    ensures Safe(EscapeFirst(b)) && EscapeFirst(b) != []
  {
    if IsReserved(b) {
      var out := EscapeFirst(b);
      EscapeIsLegal(b[0]);
      StemIsPrefix(b);
      assert |b| >= 3 && out == Escape(b[0]) + b[1..];
      assert out[|out| - 1] == b[|b| - 1];
      assert out[0] == PERCENT && Stem(out)[0] == PERCENT;
    }
  }

  /** The sanitizer changes exactly the unsafe components. */
  lemma {:induction false} UnchangedIffSafe(raw: Bytes)
    ensures Sanitize(raw) == raw <==> Safe(raw)
  {
    SanitizedIsSafe(raw);
    if Safe(raw) && raw != [] { LegalIsKept(raw); }
  }

  /** Sanitizing twice is sanitizing once. */
  lemma {:induction false} SanitizeIsIdempotent(raw: Bytes)
    ensures Sanitize(Sanitize(raw)) == Sanitize(raw)
  {
    SanitizedIsSafe(raw);
    UnchangedIffSafe(Sanitize(raw));
  }

  // ---------------------------------------------------------- nothing is lost

  function HexValue(d: Byte): int { if d < 58 then d as int - 48 else d as int - 55 }

  /** Reads the escapes back. */
  function Unescape(s: Bytes): seq<int>
    decreases |s|
  {
    if s == [] then []
    else if s[0] == PERCENT && |s| >= 3 then [16 * HexValue(s[1]) + HexValue(s[2])] + Unescape(s[3..])
    else [s[0] as int] + Unescape(s[1..])
  }

  function Values(s: Bytes): seq<int> { seq(|s|, i requires 0 <= i < |s| => s[i] as int) }

  lemma {:induction false} EscapeReadsBack(c: Byte, t: Bytes)
    ensures Unescape(Escape(c) + t) == [c as int] + Unescape(t)
  {
    var s := Escape(c) + t;
    assert s[0] == PERCENT && s[1] == HexDigit(c / 16) && s[2] == HexDigit(c % 16);
    assert s[3..] == t;
  }

  lemma {:induction false} PlainReadsBack(c: Byte, t: Bytes)
    requires c != PERCENT
    ensures Unescape([c] + t) == [c as int] + Unescape(t)
  {
    assert ([c] + t)[1..] == t;
  }

  lemma {:induction false} EscapeAllReadsBack(raw: Bytes, t: Bytes)
    requires PERCENT !in raw
    ensures Unescape(EscapeAll(raw) + t) == Values(raw) + Unescape(t)
  {
    if raw == [] {
      assert EscapeAll(raw) + t == t && Values(raw) + Unescape(t) == Unescape(t);
    } else {
      var front, c := raw[..|raw| - 1], raw[|raw| - 1];
      var last := if IsIllegal(c) then Escape(c) else [c];
      assert EscapeAll(raw) + t == EscapeAll(front) + (last + t);
      EscapeAllReadsBack(front, last + t);
      if IsIllegal(c) { EscapeReadsBack(c, t); } else { PlainReadsBack(c, t); }
      assert Values(raw) == Values(front) + [c as int];
    }
  }

  lemma {:induction false} LastReadsBack(raw: Bytes)
    requires raw != [] && PERCENT !in raw
    ensures Unescape(EscapeLast(EscapeAll(raw))) == Values(raw)
  {
    var front, c := raw[..|raw| - 1], raw[|raw| - 1];
    var out := EscapeAll(raw);
    if IsIllegal(c) {
      EscapeIsLegal(c);
      assert out == EscapeAll(front) + Escape(c) && out[|out| - 1] == Escape(c)[2];
      assert out + [] == out;
      EscapeAllReadsBack(raw, []);
      assert Values(raw) + [] == Values(raw);
    } else if c == DOT || c == SPACE {
      assert out == EscapeAll(front) + [c] && out[..|out| - 1] == EscapeAll(front);
      EscapeAllReadsBack(front, Escape(c));
      EscapeReadsBack(c, []);
      assert Escape(c) + [] == Escape(c);
      assert Values(raw) == Values(front) + [c as int];
    } else {
      assert out == EscapeAll(front) + [c];
      assert out + [] == out;
      EscapeAllReadsBack(raw, []);
      assert Values(raw) + [] == Values(raw);
    }
  }

  /** Reading the escapes of a sanitized name back gives the name, if it held no
      percent sign: distinct such names stay distinct. */
  lemma {:induction false} SanitizeLosesNothing(raw: Bytes)
    requires PERCENT !in raw
    ensures Unescape(Sanitize(raw)) == Values(raw)
  {
    if raw != [] {
      LastReadsBack(raw);
      FirstReadsBack(EscapeLast(EscapeAll(raw)));
    }
  }

  lemma {:induction false} FirstReadsBack(b: Bytes)
    ensures Unescape(EscapeFirst(b)) == Unescape(b)
  {
    if IsReserved(b) {
      StemIsPrefix(b);
      assert b[0] == Stem(b)[0] && b[0] != PERCENT;
      EscapeReadsBack(b[0], b[1..]);
      PlainReadsBack(b[0], b[1..]);
      assert [b[0]] + b[1..] == b;
    }
  }

  // -------------------------------------------------------------------- paths

  /** `strings.Split(p, "/")`. */
  function Split(p: Bytes): (parts: seq<Bytes>)
    ensures |parts| > 0
  {
    if p == [] then [[]]
    else if p[0] == SLASH then [[]] + Split(p[1..])
    else
      var rest := Split(p[1..]);
      [[p[0]] + rest[0]] + rest[1..]
  }

  function Joined(parts: seq<Bytes>): Bytes {
    if parts == [] then []
    else if |parts| == 1 then parts[0]
    else Joined(parts[..|parts| - 1]) + [SLASH] + parts[|parts| - 1]
  }

  const UP: Bytes := [DOT, DOT]
  const HERE: Bytes := [DOT]

  /** One component of a lexical clean-up. */
  function Enter(stack: seq<Bytes>, part: Bytes, rooted: bool): seq<Bytes> {
    if part == [] || part == HERE then stack
    else if part != UP then stack + [part]
    else if stack != [] && stack[|stack| - 1] != UP then stack[..|stack| - 1]
    else if rooted then stack
    else stack + [UP]
  }

  function Resolve(stack: seq<Bytes>, parts: seq<Bytes>, rooted: bool): seq<Bytes> {
    if parts == [] then stack
    else Enter(Resolve(stack, parts[..|parts| - 1], rooted), parts[|parts| - 1], rooted)
  }

  predicate Rooted(p: Bytes) { p != [] && p[0] == SLASH }

  /** Where a path leads, component by component. */
  function Components(p: Bytes): seq<Bytes> { Resolve([], Split(p), Rooted(p)) }

  /** `filepath.Clean`. */
  function Clean(p: Bytes): Bytes {
    var parts := Components(p);
    if Rooted(p) then [SLASH] + Joined(parts) else if parts == [] then HERE else Joined(parts)
  }

  function NonEmpty(parts: seq<Bytes>): seq<Bytes> {
    if parts == [] then []
    else NonEmpty(parts[..|parts| - 1]) + (if parts[|parts| - 1] == [] then [] else [parts[|parts| - 1]])
  }

  /** `filepath.Join`: empty elements are dropped. */
  function Join(parts: seq<Bytes>): Bytes {
    var kept := NonEmpty(parts);
    if kept == [] then [] else Clean(Joined(kept))
  }

  function SanitizeEach(parts: seq<Bytes>): (r: seq<Bytes>)
    ensures |r| == |parts| && forall i :: 0 <= i < |r| ==> r[i] == Sanitize(parts[i])
  {
    seq(|parts|, i requires 0 <= i < |parts| => Sanitize(parts[i]))
  }

  /** The sanitized non-empty segments of a path. */
  function Segments(p: Bytes): seq<Bytes> { SanitizeEach(NonEmpty(Split(p))) }

  method SanitizeRelPath(p: Bytes) returns (out: Bytes)
    ensures out == if p == [] then [] else Join(Segments(p))
  {
    if p == [] { return p; }
    var segments := Split(p);
    var clean := [];
    for i := 0 to |segments|
      invariant clean == SanitizeEach(NonEmpty(segments[..i]))
    {
      assert segments[..i + 1][..i] == segments[..i];
      if segments[i] == [] { continue; }
      var seg := SanitizePathComponent(segments[i]);
      clean := clean + [seg];
    }
    assert segments[..|segments|] == segments;
    out := Join(clean);
  }

  // ------------------------------------------------------ splitting and joining

  predicate NoSlash(p: Bytes) { forall i :: 0 <= i < |p| ==> p[i] != SLASH }

  lemma Prepend(c: Byte, a: seq<Bytes>, b: seq<Bytes>)
    requires a != []
    ensures [[c] + (a + b)[0]] + (a + b)[1..] == ([[c] + a[0]] + a[1..]) + b
  {
  }

  lemma {:induction false} SplitAtSlash(p: Bytes, q: Bytes)
    ensures Split(p + [SLASH] + q) == Split(p) + Split(q)
  {
    var all := p + [SLASH] + q;
    if p == [] {
      assert all[1..] == q && all[0] == SLASH;
    } else {
      assert all[1..] == p[1..] + [SLASH] + q && all[0] == p[0];
      SplitAtSlash(p[1..], q);
      if p[0] == SLASH {
        assert [[]] + (Split(p[1..]) + Split(q)) == ([[]] + Split(p[1..])) + Split(q);
      } else {
        Prepend(p[0], Split(p[1..]), Split(q));
      }
    }
  }

  lemma {:induction false} SplitOfPart(p: Bytes)
    requires NoSlash(p)
    ensures Split(p) == [p]
  {
    if p != [] {
      SplitOfPart(p[1..]);
      assert [p[0]] + p[1..] == p;
    }
  }

  lemma {:induction false} SplitOfJoined(parts: seq<Bytes>)
    requires parts != [] && forall i :: 0 <= i < |parts| ==> NoSlash(parts[i])
    ensures Split(Joined(parts)) == parts
  {
    if |parts| == 1 {
      SplitOfPart(parts[0]);
    } else {
      var front, last := parts[..|parts| - 1], parts[|parts| - 1];
      SplitOfJoined(front);
      SplitAtSlash(Joined(front), last);
      SplitOfPart(last);
      assert parts == front + [last];
    }
  }

  /** A component that a clean-up neither drops nor follows upwards. */
  predicate Ordinary(part: Bytes) { part != [] && part != HERE && part != UP && NoSlash(part) }

  lemma {:induction false} SafeIsOrdinary(part: Bytes)
    requires Safe(part) && part != []
    ensures Ordinary(part)
  {
    assert part[|part| - 1] != DOT;
  }

  lemma {:induction false} OrdinaryStay(stack: seq<Bytes>, parts: seq<Bytes>, rooted: bool)
    requires forall i :: 0 <= i < |parts| ==> Ordinary(parts[i])
    ensures Resolve(stack, parts, rooted) == stack + parts
  {
    if parts != [] {
      OrdinaryStay(stack, parts[..|parts| - 1], rooted);
      assert parts == parts[..|parts| - 1] + [parts[|parts| - 1]];
    }
  }

  lemma {:induction false} ResolveOfMore(stack: seq<Bytes>, a: seq<Bytes>, b: seq<Bytes>, rooted: bool)
    ensures Resolve(stack, a + b, rooted) == Resolve(Resolve(stack, a, rooted), b, rooted)
  {
    if b == [] {
      assert a + b == a;
    } else {
      assert (a + b)[..|a + b| - 1] == a + b[..|b| - 1];
      ResolveOfMore(stack, a, b[..|b| - 1], rooted);
    }
  }

  lemma {:induction false} AllKept(parts: seq<Bytes>)
    requires forall i :: 0 <= i < |parts| ==> parts[i] != []
    ensures NonEmpty(parts) == parts
  {
    if parts != [] {
      AllKept(parts[..|parts| - 1]);
      assert parts == parts[..|parts| - 1] + [parts[|parts| - 1]];
    }
  }

  lemma {:induction false} NonEmptyAre(parts: seq<Bytes>)
    ensures forall i :: 0 <= i < |NonEmpty(parts)| ==> NonEmpty(parts)[i] != []
  {
    if parts != [] { NonEmptyAre(parts[..|parts| - 1]); }
  }

  lemma {:induction false} SegmentsAreOrdinary(p: Bytes)
    ensures forall i :: 0 <= i < |Segments(p)| ==> Ordinary(Segments(p)[i])
  {
    var parts := NonEmpty(Split(p));
    NonEmptyAre(Split(p));
    forall i | 0 <= i < |parts| ensures Ordinary(Sanitize(parts[i])) {
      SanitizedIsSafe(parts[i]);
      SafeIsOrdinary(Sanitize(parts[i]));
    }
  }

  // ---------------------------------------------------------------- containment

  lemma {:induction false} JoinedStart(parts: seq<Bytes>)
    requires parts != [] && forall i :: 0 <= i < |parts| ==> Ordinary(parts[i])
    ensures parts[0] != [] && Joined(parts) != [] && Joined(parts)[0] == parts[0][0]
  {
    if |parts| > 1 { JoinedStart(parts[..|parts| - 1]); }
  }

  lemma {:induction false} JoinKeeps(parts: seq<Bytes>)
    requires parts != [] && forall i :: 0 <= i < |parts| ==> Ordinary(parts[i])
    ensures Join(parts) == Joined(parts) && Split(Join(parts)) == parts && !Rooted(Join(parts))
  {
    AllKept(parts);
    JoinedStart(parts);
    SplitOfJoined(parts);
    assert !Rooted(Joined(parts)) by { assert NoSlash(parts[0]); }
    OrdinaryStay([], parts, false);
    assert [] + parts == parts;
  }

  /** The sanitized path keeps exactly the non-empty segments, each sanitized, and
      is relative; it is empty when there are none. */
  lemma {:induction false} RelPathKeepsSegments(p: Bytes)
    ensures Segments(p) == [] ==> Join(Segments(p)) == []
    ensures Segments(p) != [] ==> Split(Join(Segments(p))) == Segments(p) && !Rooted(Join(Segments(p)))
  {
    SegmentsAreOrdinary(p);
    if Segments(p) != [] { JoinKeeps(Segments(p)); }
  }

  /** Joined to a base, the sanitized path leads exactly its segments below it. */
  lemma {:induction false} JoinStaysBelowBase(base: Bytes, p: Bytes)
    requires base != []
    ensures var rel := Join(Segments(p));
            Components(Joined(NonEmpty([base, rel]))) == Components(base) + Segments(p)
    ensures Join([base, Join(Segments(p))]) == Clean(Joined(NonEmpty([base, Join(Segments(p))])))
  {
    var rel, segs := Join(Segments(p)), Segments(p);
    RelPathKeepsSegments(p);
    assert [base, rel][..1] == [base] && [base][..0] == [];
    assert NonEmpty([]) == [] && NonEmpty([base]) == [base];
    assert NonEmpty([base, rel]) == [base] + if rel == [] then [] else [rel];
    if segs == [] {
      assert Joined([base]) == base;
      assert Components(base) + segs == Components(base);
    } else {
      SegmentsAreOrdinary(p);
      JoinKeeps(segs);
      JoinedStart(segs);
      TwoParts(base, rel);
      SplitAtSlash(base, rel);
      var rooted := Rooted(base);
      assert Rooted(base + [SLASH] + rel) == rooted;
      ResolveOfMore([], Split(base), segs, rooted);
      OrdinaryStay(Components(base), segs, rooted);
    }
  }

  lemma TwoParts(a: Bytes, b: Bytes)
    ensures Joined([a] + [b]) == a + [SLASH] + b
  {
    var both := [a] + [b];
    assert both[..1] == [a] && both[1] == b;
    assert Joined([a]) == a;
  }

  /** Sanitizing a relative path twice is sanitizing it once. */
  lemma {:induction false} RelPathIsIdempotent(p: Bytes)
    ensures Join(Segments(Join(Segments(p)))) == Join(Segments(p))
  {
    RelPathKeepsSegments(p);
    if Segments(p) == [] {
      var one := Split([]);
      assert one == [[]] && one[..0] == [];
      assert NonEmpty(one) == [];
    } else {
      SegmentsAgain(p, Segments(p));
    }
  }

  lemma {:induction false} SegmentsAgain(p: Bytes, segs: seq<Bytes>)
    requires segs == Segments(p) && segs != []
    ensures Segments(Join(segs)) == segs
  {
    RelPathKeepsSegments(p);
    SegmentsAreOrdinary(p);
    AllKept(segs);
    FixedEach(NonEmpty(Split(p)));
    SameEach(segs);
  }

  lemma {:induction false} FixedEach(parts: seq<Bytes>)
    ensures forall i :: 0 <= i < |parts| ==> Sanitize(SanitizeEach(parts)[i]) == SanitizeEach(parts)[i]
  {
    forall i | 0 <= i < |parts| ensures Sanitize(SanitizeEach(parts)[i]) == SanitizeEach(parts)[i] {
      SanitizeIsIdempotent(parts[i]);
    }
  }

  lemma SameEach(parts: seq<Bytes>)
    requires forall i :: 0 <= i < |parts| ==> Sanitize(parts[i]) == parts[i]
    ensures SanitizeEach(parts) == parts
  {
  }
}
