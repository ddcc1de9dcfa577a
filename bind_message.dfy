/**
 * The wallet-bind challenge: a fixed seven-line template (header, blank
 * line, five labelled fields) whose text is what the wallet signs and what
 * the backend re-derives from the submitted fields. The clock reading and
 * the nonce are parameters here.
 */
module BindMessage {
  import opened Wrappers
  import opened Text

  const Header := "SafeChain Wallet Bind"
  const TgIdLabel := "Bind Telegram ID: "
  const AddressLabel := "Address: "
  const ChainIdLabel := "ChainId: "
  const TimestampLabel := "Timestamp: "
  const NonceLabel := "Nonce: "

  /** The fields a challenge carries; a JavaScript `null` id is `None`. */
  datatype Challenge = Challenge(
    tgId: Option<int>,
    address: string,
    chainId: Option<int>,
    timestamp: string,
    nonce: string)

  datatype DecodeError =
    | WrongLineCount(count: nat)
    | BadHeader
    | MissingLabel(expected: string)
    | BadNumber(text: string)

  /** `${x}` for a JavaScript number or `null`. */
  function RenderOptInt(x: Option<int>): string {
    match x
    case None => "null"
    case Some(n) => IntToDecimal(n)
  }

  /** Inverse of RenderOptInt; only the canonical rendering is accepted. */
  function ParseOptInt(s: string): (r: Result<Option<int>, DecodeError>)
    ensures r.Ok? ==> RenderOptInt(r.value) == s
  {
    if s == "null" then Ok(None)
    else match ParseInt(s)
      case Some(n) => if IntToDecimal(n) == s then Ok(Some(n)) else Err(BadNumber(s))
      case None => Err(BadNumber(s))
  }

  lemma OptIntRoundTrip(x: Option<int>)
    ensures ParseOptInt(RenderOptInt(x)) == Ok(x)
    ensures NoNewline(RenderOptInt(x))
  {
    if x.Some? { IntToDecimalRoundTrip(x.value); }
  }

  /**
   * `buildBindMessage(tgId, address)` with `STATE.chainId`, the ISO time and
   * the nonce passed in: the template literal is these seven lines joined by
   * newlines.
   */
  function BuildBindMessage(tgId: Option<int>, address: string, chainId: Option<int>, now: string, nonce: string): (r: string)
    ensures StartsWith(r, Header + "\n")
    ensures EndsWith(r, "\n" + NonceLabel + nonce)
  {
    var c := Challenge(tgId, address, chainId, now, nonce);
    JoinedTemplateStarts(c);
    JoinedTemplateEnds(c);
    JoinLines(BindLines(c))
  }

  /** The joined template opens with the header line. */
  lemma JoinedTemplateStarts(c: Challenge)
    ensures StartsWith(JoinLines(BindLines(c)), Header + "\n")
  {
    var lines := BindLines(c);
    PrefixStarts(Header + "\n", JoinLines(lines[1..]));
  }

  /** The joined template closes with the nonce line. */
  lemma JoinedTemplateEnds(c: Challenge)
    ensures EndsWith(JoinLines(BindLines(c)), "\n" + NonceLabel + c.nonce)
  {
    var lines := BindLines(c);
    assert lines == lines[..6] + [NonceLabel + c.nonce];
    JoinLast(lines[..6], NonceLabel + c.nonce);
    SuffixEnds(JoinLines(lines[..6]), "\n" + NonceLabel + c.nonce);
  }

  function Build(c: Challenge): string {
    BuildBindMessage(c.tgId, c.address, c.chainId, c.timestamp, c.nonce)
  }

  /** The seven lines of a message, in wire order. */
  function BindLines(c: Challenge): seq<string> {
    [ Header,
      "",
      TgIdLabel + RenderOptInt(c.tgId),
      AddressLabel + c.address,
      ChainIdLabel + RenderOptInt(c.chainId),
      TimestampLabel + c.timestamp,
      NonceLabel + c.nonce ]
  }

  predicate Wellformed(c: Challenge) {
    NoNewline(c.address) && NoNewline(c.timestamp) && NoNewline(c.nonce)
  }

  /** The value after `tag` on one line of the message. */
  function FieldValue(line: string, tag: string): (r: Result<string, DecodeError>)
    ensures r.Ok? ==> line == tag + r.value
  {
    if StartsWith(line, tag) then Ok(line[|tag|..]) else Err(MissingLabel(tag))
  }

  /** What a verifier does with a signed message: read the fields back out. */
  function DecodeBindMessage(m: string): Result<Challenge, DecodeError> {
    var ls := SplitLines(m);
    if |ls| != 7 then Err(WrongLineCount(|ls|))
    else if ls[0] != Header || ls[1] != "" then Err(BadHeader)
    else
      var tgText :- FieldValue(ls[2], TgIdLabel);
      var address :- FieldValue(ls[3], AddressLabel);
      var chainText :- FieldValue(ls[4], ChainIdLabel);
      var timestamp :- FieldValue(ls[5], TimestampLabel);
      var nonce :- FieldValue(ls[6], NonceLabel);
      var tgId :- ParseOptInt(tgText);
      var chainId :- ParseOptInt(chainText);
      Ok(Challenge(tgId, address, chainId, timestamp, nonce))
  }

  /** The message is the header, a blank line, then the five labelled fields in fixed order. */
  lemma {:induction false} BindMessageLines(c: Challenge)
    requires Wellformed(c)
    ensures SplitLines(Build(c)) == BindLines(c)
  {
    BindLinesNoNewline(c);
    SplitJoin(BindLines(c));
  }

  lemma BindLinesNoNewline(c: Challenge)
    requires Wellformed(c)
    ensures forall k :: 0 <= k < |BindLines(c)| ==> NoNewline(BindLines(c)[k])
  {
    var ls := BindLines(c);
    LabelsNoNewline();
    OptIntRoundTrip(c.tgId);
    OptIntRoundTrip(c.chainId);
    NoNewlineConcat(TgIdLabel, RenderOptInt(c.tgId));
    NoNewlineConcat(AddressLabel, c.address);
    NoNewlineConcat(ChainIdLabel, RenderOptInt(c.chainId));
    NoNewlineConcat(TimestampLabel, c.timestamp);
    NoNewlineConcat(NonceLabel, c.nonce);
  }

  lemma LabelsNoNewline()
    ensures NoNewline(Header) && NoNewline("")
    ensures NoNewline(TgIdLabel) && NoNewline(AddressLabel) && NoNewline(ChainIdLabel)
    ensures NoNewline(TimestampLabel) && NoNewline(NonceLabel)
  {
    assert NoNewline(Header);
    assert NoNewline(TgIdLabel);
    assert NoNewline(AddressLabel);
    assert NoNewline(ChainIdLabel);
    assert NoNewline(TimestampLabel);
    assert NoNewline(NonceLabel);
  }

  lemma NoNewlineConcat(a: string, b: string)
    requires NoNewline(a) && NoNewline(b)
    ensures NoNewline(a + b)
  {
  }

  /** Every field parses back out of the built message unchanged. */
  lemma {:induction false} BindMessageRoundTrip(c: Challenge)
    requires Wellformed(c)
    ensures DecodeBindMessage(Build(c)) == Ok(c)
  {
    BindMessageLines(c);
    var ls := BindLines(c);
    assert ls[2][|TgIdLabel|..] == RenderOptInt(c.tgId);
    assert ls[3][|AddressLabel|..] == c.address;
    assert ls[4][|ChainIdLabel|..] == RenderOptInt(c.chainId);
    assert ls[5][|TimestampLabel|..] == c.timestamp;
    assert ls[6][|NonceLabel|..] == c.nonce;
    OptIntRoundTrip(c.tgId);
    OptIntRoundTrip(c.chainId);
  }

  /** Conversely, a message that decodes is exactly the message built from its fields. */
  lemma {:induction false} DecodedMessageRebuilds(m: string)
    requires DecodeBindMessage(m).Ok?
    ensures Build(DecodeBindMessage(m).value) == m
    ensures Wellformed(DecodeBindMessage(m).value)
  {
    var c := DecodeBindMessage(m).value;
    var ls := SplitLines(m);
    assert FieldValue(ls[2], TgIdLabel).Ok? && FieldValue(ls[4], ChainIdLabel).Ok?;
    assert ParseOptInt(FieldValue(ls[2], TgIdLabel).value).Ok?;
    assert ParseOptInt(FieldValue(ls[4], ChainIdLabel).value).Ok?;
    assert ls == BindLines(c);
    assert NoNewline(ls[3]) && NoNewline(ls[5]) && NoNewline(ls[6]);
    JoinSplit(m);
  }

  /** Two challenges built from the same other inputs are equal iff their nonces are. */
  lemma NonceDistinguishes(tgId: Option<int>, address: string, chainId: Option<int>, now: string, n1: string, n2: string)
    ensures BuildBindMessage(tgId, address, chainId, now, n1) == BuildBindMessage(tgId, address, chainId, now, n2)
            <==> n1 == n2
  {
    var c1 := Challenge(tgId, address, chainId, now, n1);
    var c2 := Challenge(tgId, address, chainId, now, n2);
    var front := BindLines(c1)[..6];
    assert BindLines(c1) == front + [NonceLabel + n1];
    assert BindLines(c2) == front + [NonceLabel + n2];
    JoinLast(front, NonceLabel + n1);
    JoinLast(front, NonceLabel + n2);
    var p := JoinLines(front) + "\n";
    if Build(c1) == Build(c2) {
      CancelPrefix(p, NonceLabel + n1, NonceLabel + n2);
      CancelPrefix(NonceLabel, n1, n2);
    }
  }

  /** Distinct well-formed challenges never share a message, so a signature covers exactly one field set. */
  lemma BuildInjective(c1: Challenge, c2: Challenge)
    requires Wellformed(c1) && Wellformed(c2)
    requires Build(c1) == Build(c2)
    ensures c1 == c2
  {
    BindMessageRoundTrip(c1);
    BindMessageRoundTrip(c2);
  }
}
