/** String searching and trimming, as the JavaScript built-ins the server calls define them.
    One `char` stands for one UTF-16 code unit. */
module Text {

  /** The two sentinels searched for: `%%%ACTIVITY:` and `%%%`. */
  datatype Sentinel = Opener | Closer {
    function Text(): string { if Opener? then "%%%ACTIVITY:" else "%%%" }

    function Length(): nat { if Opener? then 12 else 3 }
  }

  predicate OccursAt(s: string, p: Sentinel, i: nat) {
    i + p.Length() <= |s| && s[i] == '%' && s[i + 1] == '%' && s[i + 2] == '%' &&
    (p.Opener? ==>
       s[i + 3] == 'A' && s[i + 4] == 'C' && s[i + 5] == 'T' && s[i + 6] == 'I' && s[i + 7] == 'V' &&
       s[i + 8] == 'I' && s[i + 9] == 'T' && s[i + 10] == 'Y' && s[i + 11] == ':')
  }

  lemma OccursAtMeansText(s: string, p: Sentinel, i: nat)
    ensures OccursAt(s, p, i) <==> i + |p.Text()| <= |s| && s[i..i + |p.Text()|] == p.Text()
  {
    var text := p.Text();
    if i + |text| <= |s| {
      var w := s[i..i + |text|];
      assert forall k | 0 <= k < |text| :: w[k] == s[i + k];
      if w == text {
        assert forall k | 0 <= k < |text| :: s[i + k] == text[k];
        if p.Opener? { assert s[i + 3] == text[3]; }
      }
      if OccursAt(s, p, i) { assert w == text; }
    }
  }

  /** `s.indexOf(p)`: the leftmost occurrence, or -1. */
  function IndexOf(s: string, p: Sentinel): (r: int)
    ensures -1 <= r
    ensures 0 <= r ==> OccursAt(s, p, r)
    ensures forall j: nat | j < r || r == -1 :: !OccursAt(s, p, j)
  {
    IndexFrom(s, p, 0)
  }

  function IndexFrom(s: string, p: Sentinel, i: nat): (r: int)
    requires i <= |s|
    ensures r == -1 || i <= r
    ensures 0 <= r ==> OccursAt(s, p, r)
    ensures forall j: nat | i <= j && (j < r || r == -1) :: !OccursAt(s, p, j)
    decreases |s| - i
  {
    if OccursAt(s, p, i) then i
    else if i == |s| then -1
    else IndexFrom(s, p, i + 1)
  }

  predicate IsBreak(c: char) { c == '\n' || c == '\r' }

  predicate BreakAt(s: string, i: nat) { i < |s| && IsBreak(s[i]) }

  /** `s.search(/[\r\n]/)`: the first line break, or -1. */
  function FirstBreak(s: string): (r: int)
    ensures -1 <= r < |s|
    ensures 0 <= r ==> BreakAt(s, r)
    ensures forall j: nat | j < r || r == -1 :: !BreakAt(s, j)
  {
    BreakFrom(s, 0)
  }

  function BreakFrom(s: string, i: nat): (r: int)
    requires i <= |s|
    ensures r == -1 || i <= r < |s|
    ensures 0 <= r ==> BreakAt(s, r)
    ensures forall j: nat | i <= j && (j < r || r == -1) :: !BreakAt(s, j)
    decreases |s| - i
  {
    if i == |s| then -1 else if BreakAt(s, i) then i else BreakFrom(s, i + 1)
  }

  /** The characters `String.prototype.trim` removes: white space and line terminators. */
  predicate IsSpace(c: char) {
    '\t' <= c <= '\r' || c == ' ' || c == '\U{A0}' || c == '\U{1680}' ||
    '\U{2000}' <= c <= '\U{200A}' || c == '\U{2028}' || c == '\U{2029}' ||
    c == '\U{202F}' || c == '\U{205F}' || c == '\U{3000}' || c == '\U{FEFF}'
  }

  /** White space and line terminators of ECMAScript, one by one. */
  lemma SpacesAreThese(c: char)
    ensures IsSpace(c) <==>
              c in ['\U{9}', '\U{A}', '\U{B}', '\U{C}', '\U{D}', '\U{20}', '\U{A0}', '\U{1680}', '\U{2000}', '\U{2001}',
                    '\U{2002}', '\U{2003}', '\U{2004}', '\U{2005}', '\U{2006}', '\U{2007}', '\U{2008}', '\U{2009}',
                    '\U{200A}', '\U{2028}', '\U{2029}', '\U{202F}', '\U{205F}', '\U{3000}', '\U{FEFF}']
  {}

  function TrimStart(s: string): string {
    if s == [] || !IsSpace(s[0]) then s else TrimStart(s[1..])
  }

  function TrimEnd(s: string): string {
    if s == [] || !IsSpace(s[|s| - 1]) then s else TrimEnd(s[..|s| - 1])
  }

  /** `s.trim()`. */
  function Trim(s: string): string {
    TrimEnd(TrimStart(s))
  }

  /** An occurrence wholly inside a prefix is where the longer text finds it too. */
  lemma IndexInPrefix(s: string, q: string, p: Sentinel)
    requires 0 <= IndexOf(s, p)
    ensures IndexOf(s + q, p) == IndexOf(s, p)
  {
    assert OccursAt(s + q, p, IndexOf(s, p));
    forall j: nat | j < IndexOf(s, p) ensures !OccursAt(s + q, p, j) {
      assert !OccursAt(s, p, j);
    }
  }

  /** Text that completes an occurrence the prefix does not hold reaches past its end. */
  lemma IndexPastPrefix(s: string, q: string, p: Sentinel)
    requires IndexOf(s, p) == -1
    ensures IndexOf(s + q, p) == -1 || |s| < IndexOf(s + q, p) + p.Length()
  {
    forall k: nat | k + p.Length() <= |s| ensures !OccursAt(s + q, p, k) {
      assert !OccursAt(s, p, k);
    }
  }

  lemma BreakInPrefix(s: string, q: string)
    ensures 0 <= FirstBreak(s) ==> FirstBreak(s + q) == FirstBreak(s)
    ensures FirstBreak(s) == -1 ==> FirstBreak(s + q) == -1 || |s| <= FirstBreak(s + q)
  {
    forall j: nat | j < |s| ensures BreakAt(s + q, j) == BreakAt(s, j) {}
  }

  /** Dropping text no occurrence starts in moves the leftmost one and nothing else. */
  lemma IndexAfterDrop(s: string, d: nat, p: Sentinel)
    requires d <= |s| && forall j: nat | j < d :: !OccursAt(s, p, j)
    ensures IndexOf(s, p) == if IndexOf(s[d..], p) == -1 then -1 else d + IndexOf(s[d..], p)
  {
    forall j: nat ensures OccursAt(s[d..], p, j) == OccursAt(s, p, d + j) {}
    var k := IndexOf(s, p);
    if k != -1 {
      assert d <= k && OccursAt(s, p, d + (k - d));
      assert OccursAt(s[d..], p, k - d);
      forall j: nat | j < k - d ensures !OccursAt(s[d..], p, j) {
        assert !OccursAt(s, p, d + j);
      }
    } else {
      forall j: nat ensures !OccursAt(s[d..], p, j) {
        assert !OccursAt(s, p, d + j);
      }
    }
  }
}
