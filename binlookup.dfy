/** `getBinInfo(bin)`: metadata for a BIN, from the constant local table first,
    then from the remote BIN service, and a fixed fallback record when the
    remote call fails. The HTTP request itself is not modelled: its outcome is an
    input, either a failure or a response whose fields may each be missing. */
module BinLookup {
  import opened Text

  datatype BinRecord = BinRecord(
    bank: string, country: string, emoji: string, scheme: string, cardType: string, level: string)

  /** `binDatabase` */
  const BinDatabase: map<string, BinRecord> := map[
    "515462" := BinRecord("Example Bank", "United States", "\U{1F1FA}\U{1F1F8}", "Visa", "Credit", "Standard"),
    "401288" := BinRecord("Another Bank", "United Kingdom", "\U{1F1EC}\U{1F1E7}", "Visa", "Debit", "Gold"),
    "510510" := BinRecord("Sample Bank", "Canada", "\U{1F1E8}\U{1F1E6}", "MasterCard", "Credit", "Platinum")
  ]

  /** The record returned when the remote call fails. */
  const Fallback: BinRecord := BinRecord("UNKNOWN BANK", "UNKNOWN", "", "UNKNOWN", "UNKNOWN", "N/A")

  /** The fields of the remote service's JSON reply that the bot reads
      (`bank.name`, `country.name`, `country.emoji`, `scheme`, `type`); `None`
      stands for a missing object, a missing field or `null`. */
  datatype BinResponse = BinResponse(
    bankName: Option<string>, countryName: Option<string>, countryEmoji: Option<string>,
    scheme: Option<string>, cardType: Option<string>)

  /** The outcome of `axios.get` and of reading its reply: any exception inside
      the `try` block (network error, timeout, malformed reply) is `RequestFailed`. */
  datatype Remote = RequestFailed | Responded(data: BinResponse)

  /** `value || default` for an optional string: missing and empty are both falsy. */
  function OrDefault(value: Option<string>, default: string): (r: string)
    ensures value.Some? && value.value != "" ==> r == value.value
    ensures r == default || value == Some(r)
    ensures r == "" ==> default == ""
  {
    if value.Some? && value.value != "" then value.value else default
  }

  /** `value?.toUpperCase() || default` */
  function UpperOrDefault(value: Option<string>, default: string): (r: string)
    ensures value.Some? && value.value != "" ==> r == ToUpper(value.value)
    ensures r == default || (value.Some? && r == ToUpper(value.value))
    ensures r == "" ==> default == ""
  {
    if value.Some? then OrDefault(Some(ToUpper(value.value)), default) else default
  }

  /** The record built from a successful remote reply. */
  function FromResponse(data: BinResponse): (r: BinRecord)
    ensures r.level == "N/A"
    ensures r.bank != "" && r.country != "" && r.scheme != "" && r.cardType != ""
    ensures r.bank == "UNKNOWN BANK" || data.bankName == Some(r.bank)
    ensures r.country == "UNKNOWN" || data.countryName == Some(r.country)
    ensures r.emoji == "" || data.countryEmoji == Some(r.emoji)
  {
    BinRecord(
      OrDefault(data.bankName, "UNKNOWN BANK"),
      OrDefault(data.countryName, "UNKNOWN"),
      OrDefault(data.countryEmoji, ""),
      UpperOrDefault(data.scheme, "UNKNOWN"),
      UpperOrDefault(data.cardType, "UNKNOWN"),
      "N/A")
  }

  /** `getBinInfo(bin)`, given what the remote call would yield. It never fails. */
  function GetBinInfo(bin: string, remote: Remote): (r: BinRecord)
    ensures bin in BinDatabase ==> r == BinDatabase[bin]
    ensures bin !in BinDatabase && remote.RequestFailed? ==> r == Fallback
    ensures bin !in BinDatabase ==> r.level == "N/A"
    ensures r.bank != "" && r.country != "" && r.scheme != "" && r.cardType != "" && r.level != ""
  {
    if bin in BinDatabase then BinDatabase[bin]
    else match remote
      case RequestFailed => Fallback
      case Responded(data) => FromResponse(data)
  }

  // ---------------------------------------------------------------- lemmas

  predicate Provided(value: Option<string>) { value.Some? && value.value != "" }

  /** On a table miss with a reply, each field is the reply's value when it is
      present and non-empty (upper-cased for scheme and type) and its default
      otherwise; the level is always "N/A". */
  lemma {:induction false} RemoteFieldsDefaulted(bin: string, data: BinResponse)
    requires bin !in BinDatabase
    ensures var r := GetBinInfo(bin, Responded(data));
            && r.bank == (if Provided(data.bankName) then data.bankName.value else "UNKNOWN BANK")
            && r.country == (if Provided(data.countryName) then data.countryName.value else "UNKNOWN")
            && r.emoji == (if Provided(data.countryEmoji) then data.countryEmoji.value else "")
            && r.scheme == (if Provided(data.scheme) then ToUpper(data.scheme.value) else "UNKNOWN")
            && r.cardType == (if Provided(data.cardType) then ToUpper(data.cardType.value) else "UNKNOWN")
            && r.level == "N/A"
  {
    if data.scheme.Some? { ToUpperNoLower(data.scheme.value); }
    if data.cardType.Some? { ToUpperNoLower(data.cardType.value); }
  }

  /** The scheme and type of a remote record carry no lower-case ASCII letter. */
  lemma {:induction false} RemoteSchemeUpperCase(bin: string, data: BinResponse)
    requires bin !in BinDatabase
    ensures var r := GetBinInfo(bin, Responded(data));
            forall i :: 0 <= i < |r.scheme| ==> !IsLowerAscii(r.scheme[i])
  {
    if Provided(data.scheme) { ToUpperNoLower(data.scheme.value); }
  }

  /** A reply with every field missing or empty gives the same record as a failure. */
  lemma {:induction false} EmptyResponseIsFallback(bin: string, data: BinResponse)
    requires bin !in BinDatabase
    requires !Provided(data.bankName) && !Provided(data.countryName) && !Provided(data.countryEmoji)
    requires !Provided(data.scheme) && !Provided(data.cardType)
    ensures GetBinInfo(bin, Responded(data)) == GetBinInfo(bin, RequestFailed) == Fallback
  {
    RemoteFieldsDefaulted(bin, data);
  }

  /** A table hit does not depend on the remote outcome at all. */
  lemma {:induction false} TableHitIgnoresRemote(bin: string, remote1: Remote, remote2: Remote)
    requires bin in BinDatabase
    ensures GetBinInfo(bin, remote1) == GetBinInfo(bin, remote2) == BinDatabase[bin]
  {
  }

  /** The table is keyed by six-digit BINs only. */
  lemma {:induction false} TableKeysAreSixDigits(key: string)
    requires key in BinDatabase
    ensures |key| == 6 && IsDigits(key)
  {
  }
}
