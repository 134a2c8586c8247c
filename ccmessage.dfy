/** `createCCMessage(bin, binInfo, cards)`: the reply text listing the generated
    cards and the BIN's metadata, with fixed Telegram send options. Emoji and the
    Markdown markup are opaque characters here. */
module CCMessage {
  import opened Text
  import opened BinLookup

  datatype SendOptions = SendOptions(parseMode: string, disableWebPagePreview: bool)

  datatype Message = Message(text: string, options: SendOptions)

  /** `{ parse_mode: 'Markdown', disable_web_page_preview: true }` */
  const MarkdownOptions: SendOptions := SendOptions("Markdown", true)

  const HeaderLead: string := "\U{1F4B3} **Generated Credit Cards for BIN: "

  const HeaderTail: string := "**\n\n" + "\U{1F4CB} **Tap any card below to copy:**\n\n"

  function Header(bin: string): (r: string)
    ensures |r| == |HeaderLead| + |bin| + |HeaderTail|
    ensures r[..|HeaderLead|] == HeaderLead && r[|HeaderLead|..|HeaderLead| + |bin|] == bin
  {
    HeaderLead + bin + HeaderTail
  }

  /** A card wrapped in backticks, so that Telegram shows it as tap-to-copy code. */
  function Backticked(card: string): string
  {
    "`" + card + "`"
  }

  function BacktickedAll(cards: seq<string>): (r: seq<string>)
    ensures |r| == |cards| && forall i :: 0 <= i < |cards| ==> r[i] == Backticked(cards[i])
  {
    if cards == [] then [] else [Backticked(cards[0])] + BacktickedAll(cards[1..])
  }

  /** `cards.map(card => `\`${card}\``).join('\n')` */
  function CardList(cards: seq<string>): (r: string)
    ensures cards == [] <==> r == ""
    ensures cards != [] ==> r[0] == '`'
  {
    Join(BacktickedAll(cards), '\n')
  }

  /** Everything of the footer before the card level. */
  function FooterLead(info: BinRecord): string
  {
    "\n\n\U{1F3E6} **Bank:** " + info.bank + "\n"
    + "\U{1F30E} **Country:** " + info.country + " " + info.emoji + "\n"
    + "\U{1F516} **Card Scheme:** " + info.scheme + "\n"
    + "\U{1F516} **Card Type:** " + info.cardType + "\n"
    + "\U{1F4B3} **Card Level:** "
  }

  function Footer(info: BinRecord): (r: string)
    ensures |info.level| <= |r| && r[|r| - |info.level|..] == info.level
  {
    FooterLead(info) + info.level
  }

  function CreateCCMessage(bin: string, info: BinRecord, cards: seq<string>): (m: Message)
    ensures m.options == MarkdownOptions
  {
    Message(Header(bin) + CardList(cards) + Footer(info), MarkdownOptions)
  }

  // ---------------------------------------------------------------- lemmas

  lemma {:induction false} TakeOfConcat(a: string, b: string, k: nat)
    requires k <= |a|
    ensures (a + b)[..k] == a[..k]
  {
  }

  /** The text opens with the header naming the BIN. */
  lemma {:induction false} MessageStartsWithBin(bin: string, info: BinRecord, cards: seq<string>)
    ensures |HeaderLead + bin| <= |CreateCCMessage(bin, info, cards).text|
    ensures CreateCCMessage(bin, info, cards).text[..|HeaderLead + bin|] == HeaderLead + bin
  {
    var head := HeaderLead + bin;
    var k := |head|;
    TakeOfConcat(head, HeaderTail, k);
    TakeOfConcat(Header(bin), CardList(cards), k);
    TakeOfConcat(Header(bin) + CardList(cards), Footer(info), k);
    assert head[..k] == head;
  }

  /** The text closes with the card level. */
  lemma {:induction false} MessageEndsWithLevel(bin: string, info: BinRecord, cards: seq<string>)
    ensures |info.level| <= |CreateCCMessage(bin, info, cards).text|
    ensures var t := CreateCCMessage(bin, info, cards).text; t[|t| - |info.level|..] == info.level
  {
    var lead := Header(bin) + CardList(cards);
    var t := CreateCCMessage(bin, info, cards).text;
    assert t == (lead + FooterLead(info)) + info.level;
  }

  /** Between header and footer the text lists the cards one per line, each in
      backticks, in the order given: splitting that block on newlines gives them back. */
  lemma {:induction false} MessageListsCards(bin: string, info: BinRecord, cards: seq<string>)
    requires |cards| >= 1
    requires forall i :: 0 <= i < |cards| ==> '\n' !in cards[i]
    ensures var t := CreateCCMessage(bin, info, cards).text;
            var start, end := |Header(bin)|, |t| - |Footer(info)|;
            && start <= end <= |t|
            && Split(t[start..end], '\n') == BacktickedAll(cards)
  {
    var t := CreateCCMessage(bin, info, cards).text;
    var list := BacktickedAll(cards);
    assert t[|Header(bin)|..|t| - |Footer(info)|] == CardList(cards);
    forall i | 0 <= i < |list|
      ensures '\n' !in list[i]
    {
      assert list[i] == "`" + cards[i] + "`";
    }
    SplitJoin(list, '\n');
  }
}
