/** The `/gen <bin>` handler: sanitise the argument, reject it with a warning
    unless at least six digits remain, otherwise generate twenty cards, look the
    BIN up under its first eight digits and build the reply. Sending the reply is
    transport and is not modelled: the handler returns the message it would send. */
module GenCommand {
  import opened Text
  import opened Luhn
  import opened CardGen
  import opened BinLookup
  import opened CCMessage

  const BatchSize: nat := 20
  const MinBinDigits: nat := 6
  const LookupDigits: nat := 8

  const WarningText: string :=
    "\U{26A0}\U{FE0F} Please enter a valid BIN (6+ digits)\nExample: /gen 515462"

  /** What the handler sends, if anything. */
  datatype Reply =
    | Warning(text: string)       // the BIN was rejected
    | Cards(message: Message)     // the generated cards and the BIN metadata
    | NoReply                     // some card's draws ran out: the source would still be looping

  /** `match[1].trim().replace(/\D/g, '')` */
  function SanitizeBin(arg: string): (bin: string)
    ensures IsDigits(bin)
  {
    KeepDigits(Trim(arg))
  }

  /** `/^\d{6,}$/.test(bin)` */
  predicate MatchesBinPattern(bin: string)
    ensures MatchesBinPattern(bin) <==> |bin| >= MinBinDigits && KeepDigits(bin) == bin
  {
    |bin| >= MinBinDigits && IsDigits(bin)
  }

  /** `bin.substring(0, 8)` */
  function LookupKey(bin: string): (key: string)
    ensures |key| <= LookupDigits && |key| <= |bin| && key == bin[..|key|]
    ensures |key| < LookupDigits ==> key == bin
  {
    Take(bin, LookupDigits)
  }

  /** `Array.from({ length: n }, () => generateValidCard(bin))`, one `CardDraw` per card.
      `complete` is false when some card's draws ran out. */
  method GenerateBatch(bin: string, draws: seq<CardDraw>, currentYear: nat)
    returns (cards: seq<string>, complete: bool)
    requires IsDigits(bin)
    ensures complete <==> forall i :: 0 <= i < |draws| ==> GeneratedCard(bin, draws[i], currentYear).Some?
    ensures complete ==> |cards| == |draws|
    ensures complete ==> forall i :: 0 <= i < |draws| ==> GeneratedCard(bin, draws[i], currentYear) == Some(cards[i])
  {
    cards := [];
    var i := 0;
    while i < |draws|
      invariant 0 <= i <= |draws| && |cards| == i
      invariant forall j :: 0 <= j < i ==> GeneratedCard(bin, draws[j], currentYear) == Some(cards[j])
    {
      var card := GenerateValidCard(bin, draws[i], currentYear);
      if card.None? {
        return cards, false;
      }
      ghost var done := cards;
      cards := cards + [card.value];
      forall j | 0 <= j <= i
        ensures GeneratedCard(bin, draws[j], currentYear) == Some(cards[j])
      {
        if j < i { assert cards[j] == done[j]; }
      }
      i := i + 1;
    }
    complete := true;
  }

  /** The `/gen` handler, given the command argument, the random draws for the
      twenty cards, the current year and the outcome of the remote BIN lookup. */
  method HandleGen(arg: string, draws: seq<CardDraw>, currentYear: nat, remote: Remote)
    returns (reply: Reply, cards: seq<string>)
    requires |draws| == BatchSize
    requires forall i :: 0 <= i < |draws| ==> ValidDraw(draws[i])
    ensures reply.Warning? <==> |KeepDigits(arg)| < MinBinDigits
    ensures reply.Warning? ==> reply.text == WarningText && cards == []
    ensures reply.Cards? ==> |cards| == BatchSize
    ensures reply.Cards? ==>
              reply.message == CreateCCMessage(KeepDigits(arg), GetBinInfo(LookupKey(KeepDigits(arg)), remote), cards)
    ensures reply.Cards? ==>
              forall i :: 0 <= i < BatchSize ==> GeneratedCard(KeepDigits(arg), draws[i], currentYear) == Some(cards[i])
    ensures reply.Cards? && currentYear >= 10 ==>
              forall i :: 0 <= i < BatchSize ==>
                CardShape(KeepDigits(arg), cards[i], draws[i].monthIndex, currentYear + draws[i].yearOffset, draws[i].cvv)
    ensures reply.NoReply? <==>
              |KeepDigits(arg)| >= MinBinDigits
              && exists i :: 0 <= i < BatchSize && GeneratedCard(KeepDigits(arg), draws[i], currentYear).None?
  {
    var bin := SanitizeBin(arg);
    KeepDigitsTrim(arg);
    if !MatchesBinPattern(bin) {
      return Warning(WarningText), [];
    }
    var complete;
    cards, complete := GenerateBatch(bin, draws, currentYear);
    if !complete {
      return NoReply, cards;
    }
    if currentYear >= 10 {
      SentCardsHaveCardShape(bin, draws, currentYear, cards);
    }
    var info := GetBinInfo(LookupKey(bin), remote);
    reply := Cards(CreateCCMessage(bin, info, cards));
  }

  // ---------------------------------------------------------------- lemmas

  /** The accepted BIN is exactly the digits of the argument, in order: trimming
      cannot remove a digit. It passes the pattern exactly when it has six or more. */
  lemma {:induction false} SanitizedBin(arg: string)
    ensures SanitizeBin(arg) == KeepDigits(arg)
    ensures MatchesBinPattern(SanitizeBin(arg)) <==> |KeepDigits(arg)| >= MinBinDigits
  {
    KeepDigitsTrim(arg);
  }

  /** The table is looked up under the first eight digits, so a BIN of seven or more
      digits never hits a six-digit table entry, even one it starts with, and its
      metadata comes from the remote service. */
  lemma {:induction false} LongBinMissesTable(bin: string, remote: Remote)
    requires |bin| > MinBinDigits
    ensures LookupKey(bin) !in BinDatabase
    ensures GetBinInfo(LookupKey(bin), remote)
            == if remote.RequestFailed? then Fallback else FromResponse(remote.data)
  {
    assert |LookupKey(bin)| > 6;
  }

  /** `/gen 515462` picks up the local table record for 515462, whatever the remote service would say. */
  lemma {:induction false} ExampleBinUsesTable(remote: Remote)
    ensures KeepDigits("515462") == "515462"
    ensures GetBinInfo(LookupKey(KeepDigits("515462")), remote) == BinDatabase["515462"]
  {
    assert KeepDigits("515462") == "515462" by {
      var s := "515462";
      assert s[1..] == "15462" && s[1..][1..] == "5462" && s[1..][1..][1..] == "462";
      assert s[1..][1..][1..][1..] == "62" && s[1..][1..][1..][1..][1..] == "2";
    }
  }

  /** Every card of a complete batch, as `HandleGen` sends it, has the card shape
      for its own draw: a number that passes `luhnCheck`, is 16 digits long and
      starts with the BIN (of at most 16 digits), then the drawn month, year and CVV. */
  lemma {:induction false} SentCardsHaveCardShape(
    bin: string, draws: seq<CardDraw>, currentYear: nat, cards: seq<string>)
    requires IsDigits(bin) && currentYear >= 10
    requires |cards| == |draws|
    requires forall i :: 0 <= i < |draws| ==> ValidDraw(draws[i])
    requires forall i :: 0 <= i < |draws| ==> GeneratedCard(bin, draws[i], currentYear) == Some(cards[i])
    ensures forall i :: 0 <= i < |draws| ==>
              CardShape(bin, cards[i], draws[i].monthIndex, currentYear + draws[i].yearOffset, draws[i].cvv)
  {
    forall i | 0 <= i < |draws| {
      GeneratedCardShape(bin, draws[i], currentYear, cards[i]);
    }
  }
}
