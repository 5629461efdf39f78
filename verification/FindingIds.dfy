/**
 The identity of a finding: four fields, each preceded by its length in eight bytes, fed to
 a hash. The hash is kept as the bytes it is fed.
 */
module FindingIds {
  import opened Basics

  newtype Byte = b: int | 0 <= b < 256

  type Bytes = seq<Byte>

  const WIDTH := 8

  function Power(n: nat): nat {
    if n == 0 then 1 else 256 * Power(n - 1)
  }

  /** The `width` low bytes of `n`, most significant first. */
  function BigEndian(n: nat, width: nat): (r: Bytes)
    ensures |r| == width
  {
    if width == 0 then [] else BigEndian(n / 256, width - 1) + [(n % 256) as Byte]
  }

  function Put(field: Bytes): Bytes {
    BigEndian(|field|, WIDTH) + field
  }

  /** What the hash is fed, field by field. */
  function Preimage(path: Bytes, rule: Bytes, line: Bytes, evidence: Bytes): Bytes {
    Put(path) + Put(rule) + Put(line) + Put(evidence)
  }

  lemma {:induction false} BigEndianInjective(m: nat, n: nat, width: nat)
    requires m < Power(width) && n < Power(width) && BigEndian(m, width) == BigEndian(n, width)
    ensures m == n
  {
    if width > 0 {
      var a, b := BigEndian(m / 256, width - 1), BigEndian(n / 256, width - 1);
      assert (a + [(m % 256) as Byte])[width - 1] == (b + [(n % 256) as Byte])[width - 1];
      assert a == BigEndian(m, width)[..width - 1] && b == BigEndian(n, width)[..width - 1];
      BigEndianInjective(m / 256, n / 256, width - 1);
      assert m == m / 256 * 256 + m % 256 && n == n / 256 * 256 + n % 256;
    }
  }

  lemma TwoToThe64()
    ensures Power(WIDTH) == 0x1_0000_0000_0000_0000
  {
    assert Power(1) == 256 && Power(2) == 0x1_0000 && Power(3) == 0x100_0000 && Power(4) == 0x1_0000_0000;
    assert Power(5) == 0x100_0000_0000 && Power(6) == 0x1_0000_0000_0000 && Power(7) == 0x100_0000_0000_0000;
  }

  /** The length fits in the eight bytes in front of the field. */
  predicate Fits(field: Bytes) {
    |field| < 0x1_0000_0000_0000_0000
  }

  /** A field is read back from the front of any string: no field can pass for another
      together with the start of its neighbour. */
  lemma PutSplits(a: Bytes, b: Bytes, restA: Bytes, restB: Bytes)
    requires Fits(a) && Fits(b) && Put(a) + restA == Put(b) + restB
    ensures a == b && restA == restB
  {
    hide Power, BigEndian;
    var s := Put(a) + restA;
    TwoToThe64();
    assert s[..WIDTH] == BigEndian(|a|, WIDTH) && s[..WIDTH] == BigEndian(|b|, WIDTH);
    BigEndianInjective(|a|, |b|, WIDTH);
    assert s[WIDTH..WIDTH + |a|] == a && s[WIDTH..WIDTH + |b|] == b;
    assert s[WIDTH + |a|..] == restA && s[WIDTH + |b|..] == restB;
  }

  /** Fields under 2^64 bytes: the preimages agree exactly when the fields do. */
  lemma PreimageDecodes(path: Bytes, rule: Bytes, line: Bytes, evidence: Bytes, path': Bytes, rule': Bytes, line': Bytes, evidence': Bytes)
    requires Fits(path) && Fits(rule) && Fits(line) && Fits(evidence)
    requires Fits(path') && Fits(rule') && Fits(line') && Fits(evidence')
    ensures Preimage(path, rule, line, evidence) == Preimage(path', rule', line', evidence')
       <==> path == path' && rule == rule' && line == line' && evidence == evidence'
  {
    hide Put, Fits;
    if Preimage(path, rule, line, evidence) == Preimage(path', rule', line', evidence') {
      var tail1, tail1' := Put(line) + Put(evidence), Put(line') + Put(evidence');
      var tail, tail' := Put(rule) + tail1, Put(rule') + tail1';
      assert Preimage(path, rule, line, evidence) == Put(path) + tail;
      assert Preimage(path', rule', line', evidence') == Put(path') + tail';
      PutSplits(path, path', tail, tail');
      PutSplits(rule, rule', tail1, tail1');
      PutSplits(line, line', Put(evidence), Put(evidence'));
      assert Put(evidence) + [] == Put(evidence) && Put(evidence') + [] == Put(evidence');
      PutSplits(evidence, evidence', [], []);
    }
  }

  /* ----- Which fields make the identity ----- */

  function Ascii(text: string): (r: Bytes)
    ensures |r| == |text|
  {
    seq(|text|, i requires 0 <= i < |text| => (text[i] as int % 256) as Byte)
  }

  const SECRET := Ascii("secret")
  const SECRET_DOT := Ascii("secret.")

  /** Rules whose evidence already carries the anchor, so that the line may move. */
  const ANCHORED: set<Bytes> := {
    Ascii("complexity"), Ascii("clone"), SECRET, Ascii("path.absolute"), Ascii("path.unix-absolute"), Ascii("url.localhost")
  }

  /** The ruleset's own rules, and how an excerpt is folded. */
  datatype Ruleset = Ruleset(gitleaks: Bytes -> bool, fold: Bytes -> Bytes)

  function LowerByte(b: Byte): Byte {
    if 65 <= b <= 90 then b + 32 else b
  }

  function RuleKey(rule: Bytes): (r: Bytes)
    ensures |r| == |rule|
  {
    seq(|rule|, i requires 0 <= i < |rule| => LowerByte(rule[i]))
  }

  predicate IsVerbatim(rs: Ruleset, rule: Bytes) {
    var key := RuleKey(rule);
    key == SECRET || SECRET_DOT <= key || rs.gitleaks(key)
  }

  predicate IsDecorative(rs: Ruleset, rule: Bytes) {
    var key := RuleKey(rule);
    key in ANCHORED || SECRET_DOT <= key || rs.gitleaks(key)
  }

  function LineToken(rs: Ruleset, rule: Bytes, line: Option<nat>): Bytes {
    if IsDecorative(rs, rule) || line.None? then [] else Ascii(Decimal(line.value))
  }

  function EvidenceKey(rs: Ruleset, rule: Bytes, evidence: Bytes): Bytes {
    if IsVerbatim(rs, rule) then evidence else rs.fold(evidence)
  }

  /** What a detector knows of a problem when it is identified. */
  datatype Draft = Draft(rule: Bytes, path: Bytes, line: Option<nat>, evidence: Bytes)

  function IdOf(rs: Ruleset, d: Draft): Bytes {
    Preimage(d.path, RuleKey(d.rule), LineToken(rs, d.rule, d.line), EvidenceKey(rs, d.rule, d.evidence))
  }

  ghost predicate DraftFits(rs: Ruleset, d: Draft) {
    Fits(d.path) && Fits(d.rule) && Fits(LineToken(rs, d.rule, d.line)) && Fits(EvidenceKey(rs, d.rule, d.evidence))
  }

  lemma AsciiDigits(a: string, b: string)
    requires (forall c :: c in a + b ==> '0' <= c <= '9') && Ascii(a) == Ascii(b)
    ensures a == b
  {
    forall i | 0 <= i < |a| ensures a[i] == b[i] {
      assert Ascii(a)[i] == Ascii(b)[i];
      assert a[i] in a + b && b[i] in a + b;
    }
  }

  lemma LineTokens(rs: Ruleset, rule: Bytes, line: Option<nat>, line': Option<nat>)
    requires !IsDecorative(rs, rule)
    ensures LineToken(rs, rule, line) == LineToken(rs, rule, line') <==> line == line'
  {
    hide IsDecorative, Ascii;
    if line.Some? && line'.Some? && Ascii(Decimal(line.value)) == Ascii(Decimal(line'.value)) {
      DecimalDigits(line.value);
      DecimalDigits(line'.value);
      AsciiDigits(Decimal(line.value), Decimal(line'.value));
      DecimalInjective(line.value, line'.value);
    }
  }

  lemma SameRule(rs: Ruleset, rule: Bytes, rule': Bytes)
    requires RuleKey(rule) == RuleKey(rule')
    ensures IsDecorative(rs, rule) == IsDecorative(rs, rule') && IsVerbatim(rs, rule) == IsVerbatim(rs, rule')
  {
  }

  /** Two drafts are one finding exactly when path, rule up to letter case and evidence key
      agree, and the line too unless the rule makes it decorative. */
  lemma IdentityPolicy(rs: Ruleset, d: Draft, d': Draft)
    requires DraftFits(rs, d) && DraftFits(rs, d')
    ensures IdOf(rs, d) == IdOf(rs, d') <==>
              && d.path == d'.path && RuleKey(d.rule) == RuleKey(d'.rule)
              && EvidenceKey(rs, d.rule, d.evidence) == EvidenceKey(rs, d'.rule, d'.evidence)
              && (IsDecorative(rs, d.rule) || d.line == d'.line)
  {
    hide RuleKey, EvidenceKey, IsDecorative, IsVerbatim, Preimage;
    PreimageDecodes(d.path, RuleKey(d.rule), LineToken(rs, d.rule, d.line), EvidenceKey(rs, d.rule, d.evidence),
                    d'.path, RuleKey(d'.rule), LineToken(rs, d'.rule, d'.line), EvidenceKey(rs, d'.rule, d'.evidence));
    if RuleKey(d.rule) == RuleKey(d'.rule) {
      SameRule(rs, d.rule, d'.rule);
      if !IsDecorative(rs, d.rule) {
        LineTokens(rs, d.rule, d.line, d'.line);
      }
    }
  }

  /* ----- The hash as it is fed ----- */

  class Hasher {
    var fed: Bytes

    constructor ()
      ensures fed == []
    {
      fed := [];
    }

    method Update(bytes: Bytes)
      modifies this
      ensures fed == old(fed) + bytes
    {
      fed := fed + bytes;
    }

    method PutField(bytes: Bytes)
      modifies this
      ensures fed == old(fed) + Put(bytes)
    {
      Update(BigEndian(|bytes|, WIDTH));
      Update(bytes);
    }
  }

  method Identify(rs: Ruleset, d: Draft) returns (id: Bytes)
    ensures id == IdOf(rs, d)
  {
    hide Put, RuleKey, LineToken, EvidenceKey;
    var hasher := new Hasher();
    hasher.PutField(d.path);
    hasher.PutField(RuleKey(d.rule));
    hasher.PutField(LineToken(rs, d.rule, d.line));
    hasher.PutField(EvidenceKey(rs, d.rule, d.evidence));
    assert [] + Put(d.path) == Put(d.path);
    id := hasher.fed;
  }
}
