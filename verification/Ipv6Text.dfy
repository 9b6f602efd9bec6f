/**
 * The IPv6 text parser of the edge dial guard (brainrouter-desktop/electron/edgeDialGuard.ts)
 * against the text forms of section 2.2 of RFC 4291: it accepts exactly those texts, in any
 * letter case and with any zone, and returns the bytes they denote.
 */
module Ipv6Text {
  import opened Common
  import opened AddressText
  import opened Ipv4Blocks

  // ---------------------------------------------------------------------------------------
  // The text forms
  // ---------------------------------------------------------------------------------------

  /** Hex groups before and after an optional `::`, and an optional dotted-quad tail. */
  datatype Form = Form(left: seq<string>, gap: bool, right: seq<string>, quad: Option<string>)

  predicate HexGroups(parts: seq<string>) {
    forall i :: 0 <= i < |parts| ==> HexGroup(parts[i])
  }

  function QuadPart(f: Form): seq<string> {
    if f.quad.Some? then [f.quad.value] else []
  }

  /** Groups written out; a quad counts for two. `::` stands for at least one group. */
  predicate WellFormed(f: Form) {
    && HexGroups(f.left) && HexGroups(f.right)
    && (f.quad.Some? ==> Ipv4Value(f.quad.value).Some?)
    && var written := |f.left| + |f.right| + 2 * |QuadPart(f)|;
       if f.gap then written <= 7 else written == 8 && f.right == []
  }

  function FormText(f: Form): string {
    if f.gap then Join(f.left, ':') + "::" + Join(f.right + QuadPart(f), ':')
    else Join(f.left + QuadPart(f), ':')
  }

  function Values(parts: seq<string>): (v: seq<nat>)
    requires HexGroups(parts)
    ensures |v| == |parts|
  {
    seq(|parts|, i requires 0 <= i < |parts| => assert HexGroup(parts[i]); NumberOf(parts[i], 16))
  }

  function Zeros(n: nat): seq<nat> {
    seq(n, _ => 0)
  }

  function QuadGroups(f: Form): seq<nat>
    requires f.quad.Some? ==> Ipv4Value(f.quad.value).Some?
  {
    if f.quad.Some? then [Ipv4Value(f.quad.value).value / 0x1_0000, Ipv4Value(f.quad.value).value % 0x1_0000] else []
  }

  /** The eight groups a form denotes. */
  function FormGroups(f: Form): (g: seq<nat>)
    requires WellFormed(f)
    ensures |g| == 8
  {
    var tail := Values(f.right) + QuadGroups(f);
    Values(f.left) + Zeros(8 - |f.left| - |tail|) + tail
  }

  // ---------------------------------------------------------------------------------------
  // The parser
  // ---------------------------------------------------------------------------------------

  function LowerChar(c: char): char {
    if 'A' <= c <= 'Z' then (c as int + 32) as char else c
  }

  /** `toLowerCase` on the ASCII letters, the only ones that can occur in an accepted address. */
  function Lower(s: string): (r: string)
    ensures |r| == |s|
  {
    seq(|s|, i requires 0 <= i < |s| => LowerChar(s[i]))
  }

  /** `split('%')[0]` */
  function BeforeZone(s: string): string {
    s[..IndexOf(s, '%')]
  }

  /** `lastIndexOf`, plus one: where the part after the last occurrence begins. */
  function AfterLast(s: string, c: char): (i: nat)
    ensures i <= |s| && c !in s[i..] && (i > 0 ==> s[i - 1] == c)
  {
    if s == [] then 0
    else if s[|s| - 1] == c then |s|
    else
      var i := AfterLast(s[..|s| - 1], c);
      assert s[i..] == s[..|s| - 1][i..] + [s[|s| - 1]];
      i
  }

  /** `split('::')` */
  function SplitDouble(s: string): (parts: seq<string>)
    ensures parts != []
  {
    if |s| < 2 then [s]
    else if s[0] == ':' && s[1] == ':' then [""] + SplitDouble(s[2..])
    else
      var rest := SplitDouble(s[1..]);
      [[s[0]] + rest[0]] + rest[1..]
  }

  function HexPair(v: nat): string {
    NumeralOf(v / 0x1_0000, 16) + ":" + NumeralOf(v % 0x1_0000, 16)
  }

  /** A dotted-quad tail is rewritten as two hex groups. */
  function Expand(addr: string): Option<string> {
    var at := AfterLast(addr, ':');
    if '.' !in addr[at..] then Some(addr)
    else match Ipv4Value(addr[at..])
      case None => None
      case Some(v) => Some(addr[..at] + HexPair(v))
  }

  function ToGroups(segment: string): (g: Option<seq<nat>>)
  {
    if segment == "" then Some([])
    else if HexGroups(Split(segment, ':')) then Some(Values(Split(segment, ':')))
    else None
  }

  function HeadGroups(head: string): (r: Option<seq<nat>>)
    ensures r.Some? ==> |r.value| == 8
  {
    var halves := SplitDouble(head);
    if |halves| > 2 then None
    else
      var left := ToGroups(halves[0]);
      var right := if |halves| == 2 then ToGroups(halves[1]) else Some([]);
      if left.None? || right.None? then None
      else if |halves| == 2 then
        if |left.value| + |right.value| > 7 then None
        else Some(left.value + Zeros(8 - |left.value| - |right.value|) + right.value)
      else if |left.value| == 8 then left else None
  }

  /** The eight groups `ipv6ToBytes` finds in a text. */
  function Ipv6Groups(input: string): (r: Option<seq<nat>>)
    ensures r.Some? ==> |r.value| == 8
  {
    match Expand(Lower(BeforeZone(input)))
    case None => None
    case Some(head) => HeadGroups(head)
  }

  // ---------------------------------------------------------------------------------------
  // Double colons
  // ---------------------------------------------------------------------------------------

  predicate NoDouble(s: string) {
    forall i :: 0 <= i < |s| - 1 ==> !(s[i] == ':' && s[i + 1] == ':')
  }

  lemma {:induction false} SplitDoubleNone(s: string)
    requires NoDouble(s)
    ensures SplitDouble(s) == [s]
  {
    if |s| >= 2 {
      SplitDoubleNone(s[1..]);
      assert [s[0]] + s[1..] == s;
    }
  }

  lemma {:induction false} SplitDoubleAt(a: string, b: string)
    requires NoDouble(a) && (a != [] ==> a[|a| - 1] != ':')
    ensures SplitDouble(a + "::" + b) == [a] + SplitDouble(b)
  {
    var s := a + "::" + b;
    if a == [] {
      assert s[2..] == b;
    } else {
      assert s[1..] == a[1..] + "::" + b;
      SplitDoubleAt(a[1..], b);
      assert s[0] == a[0] && [a[0]] + a[1..] == a;
    }
  }

  /** One or two halves put back together give the text. */
  lemma {:induction false} SplitDoubleJoins(s: string)
    ensures |SplitDouble(s)| == 1 ==> s == SplitDouble(s)[0] && NoDouble(s)
    ensures |SplitDouble(s)| == 2 ==> s == SplitDouble(s)[0] + "::" + SplitDouble(s)[1]
  {
    if |s| >= 2 {
      if s[0] == ':' && s[1] == ':' {
        SplitDoubleJoins(s[2..]);
        assert s == "" + "::" + s[2..];
      } else {
        SplitDoubleJoins(s[1..]);
        assert s == [s[0]] + s[1..];
        assert |SplitDouble(s)| == 2 ==>
          SplitDouble(s)[0] == [s[0]] + SplitDouble(s[1..])[0] && SplitDouble(s)[1] == SplitDouble(s[1..])[1];
      }
    }
  }

  /** Joined hex groups contain no double colon and do not begin or end in one. */
  lemma {:induction false} JoinedGroups(parts: seq<string>)
    requires HexGroups(parts)
    ensures var s := Join(parts, ':');
      && NoDouble(s) && '.' !in s && (s == "" <==> parts == [])
      && (s != "" ==> s[0] != ':' && s[|s| - 1] != ':')
  {
    if |parts| > 0 {
      assert HexGroup(parts[0]);
    }
    if |parts| > 1 {
      JoinedGroups(parts[1..]);
      var s, rest := Join(parts, ':'), Join(parts[1..], ':');
      assert s == parts[0] + ":" + rest;
      var k := |parts[0]|;
      forall i | 0 <= i < |s| - 1 ensures !(s[i] == ':' && s[i + 1] == ':') {
        if i < k { assert s[i] == parts[0][i]; } else if i == k { assert s[k + 1] == rest[0]; } else {
          assert s[i] == rest[i - k - 1] && s[i + 1] == rest[i - k];
        }
      }
    }
  }

  // ---------------------------------------------------------------------------------------
  // Forms without a quad
  // ---------------------------------------------------------------------------------------

  lemma ToGroupsJoin(parts: seq<string>)
    requires HexGroups(parts)
    ensures ToGroups(Join(parts, ':')) == Some(Values(parts))
  {
    JoinedGroups(parts);
    if parts != [] {
      forall i | 0 <= i < |parts| ensures Free(parts[i], ':') { assert HexGroup(parts[i]); }
      SplitJoin(parts, ':');
    }
  }

  lemma ToGroupsBack(segment: string) returns (parts: seq<string>)
    requires ToGroups(segment).Some?
    ensures HexGroups(parts) && Join(parts, ':') == segment && Some(Values(parts)) == ToGroups(segment)
  {
    JoinSplit(segment, ':');
    parts := if segment == "" then [] else Split(segment, ':');
  }

  /** What the two halves of a head contribute. */
  lemma HalvesGroups(head: string, left: seq<string>, right: seq<string>)
    requires HexGroups(left) && HexGroups(right) && |left| + |right| <= 7
    requires SplitDouble(head) == [Join(left, ':'), Join(right, ':')]
    ensures HeadGroups(head) == Some(Values(left) + Zeros(8 - |left| - |right|) + Values(right))
  {
    hide ToGroups, SplitDouble, Join, Values, HexGroups;
    ToGroupsJoin(left);
    ToGroupsJoin(right);
  }

  lemma WholeGroups(head: string, left: seq<string>)
    requires HexGroups(left) && |left| == 8 && SplitDouble(head) == [Join(left, ':')]
    ensures HeadGroups(head) == Some(Values(left))
  {
    hide ToGroups, SplitDouble, Join, Values, HexGroups;
    ToGroupsJoin(left);
  }

  lemma PlainForm(f: Form)
    requires WellFormed(f) && f.quad.None?
    ensures FormText(f) == if f.gap then Join(f.left, ':') + "::" + Join(f.right, ':') else Join(f.left, ':')
    ensures FormGroups(f) ==
      if f.gap then Values(f.left) + Zeros(8 - |f.left| - |f.right|) + Values(f.right) else Values(f.left)
  {
    assert f.left + [] == f.left && f.right + [] == f.right && Values(f.right) + [] == Values(f.right);
    hide Join, Values;
    if !f.gap {
      assert Values(f.left) + Zeros(0) + Values(f.right) == Values(f.left);
    }
  }

  lemma PlainForward(f: Form)
    requires WellFormed(f) && f.quad.None?
    ensures HeadGroups(FormText(f)) == Some(FormGroups(f))
  {
    var l, r := Join(f.left, ':'), Join(f.right, ':');
    PlainForm(f);
    JoinedGroups(f.left);
    JoinedGroups(f.right);
    hide SplitDouble, Join, Values, HeadGroups, HexGroups, FormText, FormGroups;
    if f.gap {
      SplitDoubleAt(l, r);
      SplitDoubleNone(r);
      HalvesGroups(FormText(f), f.left, f.right);
    } else {
      SplitDoubleNone(l);
      WholeGroups(FormText(f), f.left);
    }
  }

  lemma PlainBackward(head: string) returns (f: Form)
    requires HeadGroups(head).Some?
    ensures WellFormed(f) && f.quad.None? && FormText(f) == head && Some(FormGroups(f)) == HeadGroups(head)
  {
    var halves := SplitDouble(head);
    SplitDoubleJoins(head);
    hide SplitDouble, Join;
    var left := ToGroupsBack(halves[0]);
    var right := [];
    if |halves| == 2 {
      right := ToGroupsBack(halves[1]);
    }
    hide ToGroups;
    f := Form(left, |halves| == 2, right, None);
    assert left + [] == left && right + [] == right && Values(right) + [] == Values(right);
    if |halves| == 1 {
      assert Values(left) + Zeros(0) + Values(right) == Values(left);
    }
  }

  // ---------------------------------------------------------------------------------------
  // The dotted-quad tail
  // ---------------------------------------------------------------------------------------

  function Lead(parts: seq<string>): string {
    if parts == [] then "" else Join(parts, ':') + ":"
  }

  lemma JoinTail(parts: seq<string>, h: string, l: string)
    ensures Join(parts + [h], ':') == Lead(parts) + h
    ensures Join(parts + [h, l], ':') == Lead(parts) + (h + ":" + l)
  {
    if parts == [] {
      assert parts + [h] == [h] && parts + [h, l] == [h, l];
      assert [h, l][1..] == [l];
    } else {
      JoinSnoc(parts, h, ':');
      JoinSnoc(parts + [h], l, ':');
      assert parts + [h] + [l] == parts + [h, l];
      assert Join(parts, ':') + [':'] + h + [':'] + l == Lead(parts) + (h + ":" + l);
    }
  }

  lemma {:induction false} AfterLastAt(x: string, q: string, c: char)
    requires c !in q && (x != [] ==> x[|x| - 1] == c)
    ensures AfterLast(x + q, c) == |x|
  {
    if q == [] {
      assert x + q == x;
    } else {
      var s := x + q;
      assert s[..|s| - 1] == x + q[..|q| - 1];
      AfterLastAt(x, q[..|q| - 1], c);
    }
  }

  /** The form the parser works on: the quad's two halves as hex groups. */
  function HexForm(f: Form): Form
    requires f.quad.Some? ==> Ipv4Value(f.quad.value).Some?
  {
    if f.quad.None? then f
    else
      var v := Ipv4Value(f.quad.value).value;
      var pair := [NumeralOf(v / 0x1_0000, 16), NumeralOf(v % 0x1_0000, 16)];
      if f.gap then Form(f.left, true, f.right + pair, None) else Form(f.left + pair, false, [], None)
  }

  lemma ValuesAppend(a: seq<string>, b: seq<string>)
    requires HexGroups(a) && HexGroups(b)
    ensures HexGroups(a + b) && Values(a + b) == Values(a) + Values(b)
  {
    assert forall i :: 0 <= i < |a| ==> (a + b)[i] == a[i];
    assert forall i :: 0 <= i < |b| ==> (a + b)[|a| + i] == b[i];
  }

  lemma PairValues(v: nat)
    requires v < 0x1_0000_0000
    ensures var pair := [NumeralOf(v / 0x1_0000, 16), NumeralOf(v % 0x1_0000, 16)];
      HexGroups(pair) && Values(pair) == [v / 0x1_0000, v % 0x1_0000]
  {
    HexGroupOf(v / 0x1_0000);
    HexGroupOf(v % 0x1_0000);
  }

  lemma HexFormAgrees(f: Form)
    requires WellFormed(f)
    ensures WellFormed(HexForm(f)) && FormGroups(HexForm(f)) == FormGroups(f)
  {
    if f.quad.Some? {
      Ipv4ValueBound(f.quad.value);
      var v := Ipv4Value(f.quad.value).value;
      PairValues(v);
      var pair := [NumeralOf(v / 0x1_0000, 16), NumeralOf(v % 0x1_0000, 16)];
      ValuesAppend(f.right, pair);
      ValuesAppend(f.left, pair);
      hide Values, NumeralOf, Ipv4Value, HexGroups;
      var tail := Values(f.right) + QuadGroups(f);
      if f.gap {
        assert Values(f.right + pair) + [] == tail;
      } else {
        assert f.right == [] && Values(f.right) == [];
        assert Values(f.left + pair) + Zeros(0) + (Values([]) + []) == Values(f.left) + Zeros(0) + tail;
      }
    }
  }

  /** A text with a dot that parses as a quad has no colon in it. */
  lemma {:induction false} JoinFree(parts: seq<string>, c: char, d: char)
    requires c != d && AllFree(parts, d)
    ensures Free(Join(parts, c), d)
  {
    if |parts| > 1 {
      assert Free(parts[0], d);
      JoinFree(parts[1..], c, d);
    } else if |parts| == 1 {
      assert Free(parts[0], d);
    }
  }

  lemma QuadHasDotsOnly(q: string)
    requires Ipv4Value(q).Some?
    ensures '.' in q && ':' !in q
  {
    JoinSplit(q, '.');
    var parts := Split(q, '.');
    forall i | 0 <= i < |parts| ensures Free(parts[i], ':') { assert OctetPart(parts[i]); }
    JoinFree(parts, '.', ':');
    assert q[|parts[0]|] == '.';
  }

  /** What precedes the last part of a form, up to and including its colon. */
  function FormLead(f: Form): string {
    if f.gap then Join(f.left, ':') + "::" + Lead(f.right) else Lead(f.left)
  }

  lemma QuadTexts(f: Form)
    requires WellFormed(f) && f.quad.Some?
    ensures FormText(f) == FormLead(f) + f.quad.value
    ensures FormText(HexForm(f)) == FormLead(f) + HexPair(Ipv4Value(f.quad.value).value)
    ensures FormLead(f) != "" && FormLead(f)[|FormLead(f)| - 1] == ':'
  {
    hide Join, Ipv4Value, NumeralOf, HexGroups;
    var v := Ipv4Value(f.quad.value).value;
    var h, l := NumeralOf(v / 0x1_0000, 16), NumeralOf(v % 0x1_0000, 16);
    var parts := if f.gap then f.right else f.left;
    JoinTail(parts, h, l);
    JoinTail(parts, f.quad.value, l);
    assert parts + [h, l] + [] == parts + [h, l];
    if f.gap {
      GapTexts(Join(f.left, ':') + "::", Lead(parts), f.quad.value, h + ":" + l);
    }
  }

  lemma GapTexts(gap: string, lead: string, quad: string, pair: string)
    ensures gap + (lead + quad) == gap + lead + quad
    ensures gap + (lead + pair) == gap + lead + pair
  {}

  lemma ExpandForward(f: Form)
    requires WellFormed(f)
    ensures Expand(FormText(f)) == Some(FormText(HexForm(f)))
  {
    if f.quad.Some? {
      QuadTexts(f);
      QuadHasDotsOnly(f.quad.value);
      hide FormText, FormLead, AfterLast, Ipv4Value, HexForm, WellFormed, HexPair;
      AfterLastAt(FormLead(f), f.quad.value, ':');
      var addr := FormText(f);
      assert addr[|FormLead(f)|..] == f.quad.value && addr[..|FormLead(f)|] == FormLead(f);
    } else {
      assert f.left + [] == f.left && f.right + [] == f.right;
      JoinedGroups(f.left);
      JoinedGroups(f.right);
      assert '.' !in FormText(f);
      hide FormText;
      assert forall x <- FormText(f)[AfterLast(FormText(f), ':')..] :: x in FormText(f);
    }
  }

  /** Every well-formed text is parsed to what it denotes, in any letter case and with any zone. */
  lemma FormsParse(s: string, f: Form)
    requires WellFormed(f) && Lower(BeforeZone(s)) == FormText(f)
    ensures Ipv6Groups(s) == Some(FormGroups(f))
  {
    ExpandForward(f);
    HexFormAgrees(f);
    PlainForward(HexForm(f)) by {
      assert HexForm(f).quad.None?;
    }
  }

  // ---------------------------------------------------------------------------------------
  // Nothing else parses
  // ---------------------------------------------------------------------------------------

  /** Splitting a text that ends in two colon-free parts ends in those parts. */
  lemma SplitEnds(y: string, h: string, l: string)
    requires Free(h, ':') && Free(l, ':') && (y != "" ==> y[|y| - 1] == ':')
    ensures var parts := Split(y + (h + ":" + l), ':');
      |parts| >= 2 && parts[|parts| - 2] == h && parts[|parts| - 1] == l && (y == "" <==> |parts| == 2)
  {
    SplitFree(h, ':');
    SplitFree(l, ':');
    SplitAt(h, l, ':');
    if y != "" {
      var x := y[..|y| - 1];
      assert y + (h + ":" + l) == x + [':'] + (h + ":" + l);
      SplitAt(x, h + ":" + l, ':');
    } else {
      assert y + (h + ":" + l) == h + ":" + l;
    }
  }

  /** The colon-separated parts of a quad-free text. */
  lemma SplitPlain(f: Form)
    requires WellFormed(f) && f.quad.None?
    ensures Split(FormText(f), ':') ==
      if f.gap then (if f.left == [] then [""] else f.left) + [""] + (if f.right == [] then [""] else f.right)
        else f.left
  {
    PlainForm(f);
    SplitGroups(f.left);
    SplitGroups(f.right);
    hide FormText, Split, Join, HexGroups;
    if f.gap {
      SplitAtGap(Join(f.left, ':'), Join(f.right, ':'));
    }
  }

  lemma SplitAtGap(l: string, r: string)
    ensures Split(l + "::" + r, ':') == Split(l, ':') + [""] + Split(r, ':')
  {
    assert l + "::" + r == l + [':'] + ([] + [':'] + r);
    SplitAt(l, [] + [':'] + r, ':');
    SplitAt([], r, ':');
    assert Split([], ':') == [""];
    hide Split;
    assert Split(l, ':') + ([""] + Split(r, ':')) == Split(l, ':') + [""] + Split(r, ':');
  }

  lemma SplitGroups(parts: seq<string>)
    requires HexGroups(parts)
    ensures Split(Join(parts, ':'), ':') == if parts == [] then [""] else parts
  {
    if parts != [] {
      forall i | 0 <= i < |parts| ensures Free(parts[i], ':') { assert HexGroup(parts[i]); }
      SplitJoin(parts, ':');
    }
  }

  /** A quad-free text that ends in the given two groups: the groups before them, and the text before them. */
  /** The groups the text ends in are the last two of the form. */
  lemma LastTwo(f: Form, y: string, h: string, l: string)
    requires WellFormed(f) && f.quad.None? && HexGroup(h) && HexGroup(l)
    requires FormText(f) == y + (h + ":" + l) && (y != "" ==> y[|y| - 1] == ':')
    ensures var parts := if f.gap then f.right else f.left;
      |parts| >= 2 && parts[|parts| - 2] == h && parts[|parts| - 1] == l
  {
    SplitPlain(f);
    var all := Split(FormText(f), ':');
    hide FormText, Split, HexGroups, Join;
    if f.gap {
      var r := if f.right == [] then [""] else f.right;
      assert all[|all| - 1] == r[|r| - 1];
      assert all[|all| - 2] == if |r| >= 2 then r[|r| - 2] else "";
    }
    SplitEnds(y, h, l);
  }

  /** A quad-free text is its lead followed by its last two groups. */
  lemma LeadOfTwo(f: Form, g: Form, h: string, l: string)
    requires WellFormed(f) && f.quad.None? && g.gap == f.gap
    requires if f.gap then g.left == f.left && g.right + [h, l] == f.right else g.left + [h, l] == f.left
    ensures FormText(f) == FormLead(g) + (h + ":" + l)
  {
    PlainForm(f);
    JoinTail(if f.gap then g.right else g.left, h, l);
    hide FormText, WellFormed, Join, Lead;
    if f.gap {
      Associate(Join(f.left, ':') + "::", Lead(g.right), h + ":" + l);
    }
  }

  lemma Associate(a: string, b: string, c: string)
    ensures a + (b + c) == a + b + c
  {}

  lemma Peel(f: Form, y: string, h: string, l: string) returns (g: Form)
    requires WellFormed(f) && f.quad.None? && HexGroup(h) && HexGroup(l)
    requires FormText(f) == y + (h + ":" + l) && (y != "" ==> y[|y| - 1] == ':')
    ensures g.quad.None? && g.gap == f.gap && FormLead(g) == y
    ensures if f.gap then g.left == f.left && g.right + [h, l] == f.right
      else g.left + [h, l] == f.left && g.right == f.right
  {
    LastTwo(f, y, h, l);
    var parts := if f.gap then f.right else f.left;
    var rest := parts[..|parts| - 2];
    assert rest + [h, l] == parts;
    g := if f.gap then f.(right := rest) else f.(left := rest);
    LeadOfTwo(f, g, h, l);
    hide FormText, FormLead, WellFormed;
    SameLead(FormLead(g), y, h + ":" + l);
  }

  lemma SameLead(a: string, b: string, tail: string)
    requires a + tail == b + tail
    ensures a == b
  {
    assert |a| == |b|;
    assert a == (a + tail)[..|a|] && b == (b + tail)[..|b|];
  }

  /** The quad put back in place of its two groups. */
  lemma Restore(addr: string, q: string, p: Form) returns (f: Form)
    requires WellFormed(p) && p.quad.None? && Ipv4Value(q).Some?
    requires |addr| >= |q| && addr[|addr| - |q|..] == q && (|addr| > |q| ==> addr[|addr| - |q| - 1] == ':')
    requires FormText(p) == addr[..|addr| - |q|] + HexPair(Ipv4Value(q).value)
    ensures WellFormed(f) && FormText(f) == addr && FormGroups(f) == FormGroups(p)
  {
    hide NumeralOf, Ipv4Value, FormText, HexGroup, FormGroups, FormLead, Numeral, NumberOf, HexForm;
    var v := Ipv4Value(q).value;
    Ipv4ValueBound(q);
    HexGroupOf(v / 0x1_0000);
    HexGroupOf(v % 0x1_0000);
    var h, l := NumeralOf(v / 0x1_0000, 16), NumeralOf(v % 0x1_0000, 16);
    var y := addr[..|addr| - |q|];
    assert y != "" ==> y[|y| - 1] == ':';
    var g := Peel(p, y, h, l);
    f := g.(quad := Some(q));
    RestoredForm(p, g, q, h, l);
    HexFormAgrees(f);
    QuadTexts(f);
    LeadIgnoresQuad(f, g);
    assert y + q == addr;
  }

  lemma LeadIgnoresQuad(f: Form, g: Form)
    requires f.left == g.left && f.right == g.right && f.gap == g.gap
    ensures FormLead(f) == FormLead(g)
  {}

  lemma RestoredForm(p: Form, g: Form, q: string, h: string, l: string)
    requires WellFormed(p) && p.quad.None? && g.quad.None? && Ipv4Value(q).Some? && g.gap == p.gap
    requires h == NumeralOf(Ipv4Value(q).value / 0x1_0000, 16) && l == NumeralOf(Ipv4Value(q).value % 0x1_0000, 16)
    requires if p.gap then g.left == p.left && g.right + [h, l] == p.right
      else g.left + [h, l] == p.left && g.right == p.right
    ensures WellFormed(g.(quad := Some(q))) && HexForm(g.(quad := Some(q))) == p
  {
    hide NumeralOf, Ipv4Value, HexGroup;
    assert forall i :: 0 <= i < |g.left| ==> g.left[i] == p.left[i];
    assert forall i :: 0 <= i < |g.right| ==> g.right[i] == p.right[i];
  }

  lemma ExpandBackward(addr: string, head: string) returns (f: Form)
    requires Expand(addr) == Some(head) && HeadGroups(head).Some?
    ensures WellFormed(f) && FormText(f) == addr && Some(FormGroups(f)) == HeadGroups(head)
  {
    var at := AfterLast(addr, ':');
    hide AfterLast, FormText, FormGroups, HeadGroups, WellFormed, Ipv4Value, HexPair;
    f := PlainBackward(head);
    if '.' in addr[at..] {
      f := Restore(addr, addr[at..], f);
    }
  }

  /** The parser accepts exactly the texts of well-formed forms, and returns the groups they denote. */
  lemma ParsesExactlyForms(s: string, g: seq<nat>)
    ensures Ipv6Groups(s) == Some(g) <==>
      exists f: Form :: WellFormed(f) && FormText(f) == Lower(BeforeZone(s)) && FormGroups(f) == g
  {
    if Ipv6Groups(s) == Some(g) {
      var f := ExpandBackward(Lower(BeforeZone(s)), Expand(Lower(BeforeZone(s))).value);
      assert WellFormed(f) && FormText(f) == Lower(BeforeZone(s)) && FormGroups(f) == g;
    }
    if f: Form :| WellFormed(f) && FormText(f) == Lower(BeforeZone(s)) && FormGroups(f) == g {
      FormsParse(s, f);
    }
  }

  // ---------------------------------------------------------------------------------------
  // Printing eight groups
  // ---------------------------------------------------------------------------------------

  predicate Groups(g: seq<nat>) {
    forall i :: 0 <= i < |g| ==> g[i] < 0x1_0000
  }

  function Texts(g: seq<nat>): (t: seq<string>)
    ensures |t| == |g|
  {
    seq(|g|, i requires 0 <= i < |g| => NumeralOf(g[i], 16))
  }

  lemma TextsDenote(g: seq<nat>)
    requires Groups(g)
    ensures HexGroups(Texts(g)) && Values(Texts(g)) == g
  {
    forall i | 0 <= i < |g| ensures HexGroup(Texts(g)[i]) && NumberOf(Texts(g)[i], 16) == g[i] { HexGroupOf(g[i]); }
  }

  /** Eight groups printed with the run i..j as `::` (none when i == j) and optionally a quad for the last two. */
  function Printed(g: seq<nat>, i: nat, j: nat, quad: Option<string>): Form
    requires |g| == 8 && i <= j <= (if quad.Some? then 6 else 8)
  {
    var end := if quad.Some? then 6 else 8;
    if i < j then Form(Texts(g[..i]), true, Texts(g[j..end]), quad) else Form(Texts(g[..end]), false, [], quad)
  }

  lemma GapDenotes(g: seq<nat>, i: nat, j: nat, end: nat, quad: Option<string>)
    requires |g| == 8 && Groups(g) && i < j <= end <= 8 && (forall k :: i <= k < j ==> g[k] == 0)
    requires end == (if quad.Some? then 6 else 8)
    requires quad.Some? ==> Ipv4Value(quad.value) == Some(0x1_0000 * g[6] + g[7])
    ensures var f := Form(Texts(g[..i]), true, Texts(g[j..end]), quad); WellFormed(f) && FormGroups(f) == g
  {
    TextsDenote(g[..i]);
    TextsDenote(g[j..end]);
    var f := Form(Texts(g[..i]), true, Texts(g[j..end]), quad);
    hide Texts, Ipv4Value, HexGroups, Values;
    assert QuadGroups(f) == g[end..];
    assert Zeros(j - i) == g[i..j];
    assert g[j..end] + g[end..] == g[j..];
    assert g == g[..i] + g[i..j] + g[j..];
  }

  lemma WholeDenotes(g: seq<nat>, end: nat, quad: Option<string>)
    requires |g| == 8 && Groups(g) && end == (if quad.Some? then 6 else 8)
    requires quad.Some? ==> Ipv4Value(quad.value) == Some(0x1_0000 * g[6] + g[7])
    ensures var f := Form(Texts(g[..end]), false, [], quad); WellFormed(f) && FormGroups(f) == g
  {
    TextsDenote(g[..end]);
    var f := Form(Texts(g[..end]), false, [], quad);
    assert Values([]) == [] && HexGroups([]);
    hide Texts, Ipv4Value, HexGroups, Values;
    assert [] + QuadGroups(f) == g[end..];
    assert g[..end] + Zeros(0) + g[end..] == g;
  }

  /**
   * Round trip: for all eight groups, the full text, the text with any one zero run as `::`, and
   * either with a dotted-quad tail, in any letter case and with any zone, parse to those groups.
   */
  lemma PrintedParses(s: string, g: seq<nat>, i: nat, j: nat, quad: Option<string>)
    requires |g| == 8 && Groups(g) && i <= j <= (if quad.Some? then 6 else 8)
    requires forall k :: i <= k < j ==> g[k] == 0
    requires quad.Some? ==> Ipv4Value(quad.value) == Some(0x1_0000 * g[6] + g[7])
    requires Lower(BeforeZone(s)) == FormText(Printed(g, i, j, quad))
    ensures Ipv6Groups(s) == Some(g)
  {
    var end := if quad.Some? then 6 else 8;
    if i < j { GapDenotes(g, i, j, end, quad); } else { WholeDenotes(g, end, quad); }
    hide Texts, FormText, Ipv4Value, WellFormed, FormGroups, Ipv6Groups;
    FormsParse(s, Printed(g, i, j, quad));
  }

  /** A zone is ignored, whatever it holds. */
  lemma ZoneIgnored(s: string, zone: string)
    requires '%' !in s
    ensures Ipv6Groups(s + "%" + zone) == Ipv6Groups(s)
  {
    IndexOfAt(s, "%" + zone, '%');
    IndexOfAt(s, [], '%');
    assert s + "%" + zone == s + ("%" + zone) && s + [] == s;
    assert BeforeZone(s + "%" + zone) == s && BeforeZone(s) == s;
  }
}
