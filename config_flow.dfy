/**
 * The setup flow: the typed wallet address is stripped and lowercased,
 * checked against the pattern `^0x[a-fA-F0-9]{40}$`, refused when already
 * configured or when the connection test fails, and otherwise stored under a
 * short title with the default refresh interval. The options flow accepts an
 * interval in the closed range 10..300.
 */
module ConfigFlow {
  import opened Wrappers
  import opened Seqs
  import opened Constants

  predicate IsHexDigit(c: char)
  {
    ('0' <= c <= '9') || ('a' <= c <= 'f') || ('A' <= c <= 'F')
  }

  /**
   * What a match of `^0x[a-fA-F0-9]{40}$` means: "0x", exactly 40 hex digits
   * of either case, then the end of the string, or a single newline that
   * ends it (where `$` also matches).
   */
  ghost predicate MatchesAddressPattern(s: string)
  {
    && (|s| == 42 || (|s| == 43 && s[42] == '\n'))
    && s[0] == '0' && s[1] == 'x'
    && forall i :: 2 <= i < 42 ==> IsHexDigit(s[i])
  }

  /** The number of hex digits `s` starts with. */
  function HexRun(s: string): (n: nat)
    ensures n <= |s|
    ensures forall i :: 0 <= i < n ==> IsHexDigit(s[i])
    ensures n < |s| ==> !IsHexDigit(s[n])
  {
    if s == [] || !IsHexDigit(s[0]) then 0 else 1 + HexRun(s[1..])
  }

  /** The pattern matched as the regular-expression engine scans it: prefix, digit run, then the end anchor. */
  function ValidateWalletAddress(address: string): (r: bool)
    ensures r <==> MatchesAddressPattern(address)
  {
    && |address| >= 2 && address[0] == '0' && address[1] == 'x'
    && HexRun(address[2..]) >= 40
    && (address[42..] == [] || address[42..] == ['\n'])
  }

  /** The characters Python's `str.strip()` removes: those `str.isspace()` accepts. */
  predicate IsSpace(c: char)
  {
    || ('\U{0009}' <= c <= '\U{000D}') || ('\U{001C}' <= c <= '\U{0020}')
    || c == '\U{0085}' || c == '\U{00A0}' || c == '\U{1680}'
    || ('\U{2000}' <= c <= '\U{200A}') || c == '\U{2028}' || c == '\U{2029}'
    || c == '\U{202F}' || c == '\U{205F}' || c == '\U{3000}'
  }

  function StripLeft(s: string): (r: string)
    ensures |r| <= |s| && r == s[|s| - |r|..]
    ensures forall i :: 0 <= i < |s| - |r| ==> IsSpace(s[i])
    ensures r == [] || !IsSpace(r[0])
  {
    if s != [] && IsSpace(s[0]) then StripLeft(s[1..]) else s
  }

  function StripRight(s: string): (r: string)
    ensures |r| <= |s| && r == s[..|r|]
    ensures forall i :: |r| <= i < |s| ==> IsSpace(s[i])
    ensures r == [] || !IsSpace(r[|r| - 1])
  {
    if s != [] && IsSpace(s[|s| - 1]) then StripRight(s[..|s| - 1]) else s
  }

  /** `s.strip()`: the slice of `s` left after dropping whitespace at both ends. */
  function Strip(s: string): (r: string)
    ensures exists i, j ::
      && 0 <= i <= j <= |s| && r == s[i..j]
      && (forall k :: 0 <= k < i ==> IsSpace(s[k]))
      && (forall k :: j <= k < |s| ==> IsSpace(s[k]))
    ensures r == [] || (!IsSpace(r[0]) && !IsSpace(r[|r| - 1]))
  {
    var left := StripLeft(s);
    var r := StripRight(left);
    var i := |s| - |left|;
    assert r == s[i..i + |r|];
    r
  }

  function LowerChar(c: char): (d: char)
    ensures 'A' <= c <= 'Z' ==> 'a' <= d <= 'z'
    ensures !('A' <= c <= 'Z') ==> d == c
    ensures !('A' <= d <= 'Z') && IsSpace(d) == IsSpace(c)
  {
    if 'A' <= c <= 'Z' then (c as int - 'A' as int + 'a' as int) as char else c
  }

  /** `s.lower()` on ASCII letters; every other character is kept. */
  function Lower(s: string): (r: string)
    ensures |r| == |s|
    ensures forall i :: 0 <= i < |s| ==> r[i] == LowerChar(s[i])
  {
    seq(|s|, i requires 0 <= i < |s| => LowerChar(s[i]))
  }

  /** Lowering a string without uppercase ASCII letters changes nothing. */
  lemma LowerUnchanged(s: string)
    requires forall i :: 0 <= i < |s| ==> !('A' <= s[i] <= 'Z')
    ensures Lower(s) == s
  {
    var r := Lower(s);
    assert |r| == |s|;
    forall i | 0 <= i < |s|
      ensures r[i] == s[i]
    {
      assert r[i] == LowerChar(s[i]);
    }
  }

  /** `user_input[wallet_address].strip().lower()` */
  function NormalizeAddress(input: string): (r: string)
    ensures |r| <= |input|
    ensures r == [] || (!IsSpace(r[0]) && !IsSpace(r[|r| - 1]))
    ensures forall i :: 0 <= i < |r| ==> !('A' <= r[i] <= 'Z')
  {
    Lower(Strip(input))
  }

  /** Normalising a normalised address changes nothing. */
  lemma NormalizeIdempotent(input: string)
    ensures NormalizeAddress(NormalizeAddress(input)) == NormalizeAddress(input)
  {
    var s := Strip(input);
    var n := Lower(s);
    if n != [] {
      assert n[0] == LowerChar(s[0]);
      assert n[|n| - 1] == LowerChar(s[|s| - 1]);
    }
    StripOfUnpadded(n);
    LowerUnchanged(n);
  }

  /** A string with no whitespace at either end is its own strip. */
  lemma StripOfUnpadded(s: string)
    requires s == [] || (!IsSpace(s[0]) && !IsSpace(s[|s| - 1]))
    ensures Strip(s) == s
  {
  }

  /**
   * A normalised address that passes the check is exactly "0x" and 40
   * lowercase hex digits: the strip removed any newline the end anchor
   * would have let through, and the lowering left no uppercase digit.
   */
  lemma ValidNormalizedIsCanonical(input: string)
    requires ValidateWalletAddress(NormalizeAddress(input))
    ensures var n := NormalizeAddress(input);
      |n| == 42 && n[..2] == "0x" &&
      forall i :: 2 <= i < 42 ==> ('0' <= n[i] <= '9') || ('a' <= n[i] <= 'f')
  {
  }

  /** An address of exactly the pattern's shape in lowercase needs no normalising and passes. */
  lemma CanonicalIsValid(address: string)
    requires |address| == 42 && address[0] == '0' && address[1] == 'x'
    requires forall i :: 2 <= i < 42 ==> ('0' <= address[i] <= '9') || ('a' <= address[i] <= 'f')
    ensures NormalizeAddress(address) == address
    ensures ValidateWalletAddress(address)
  {
    CanonicalHasNoUppercase(address);
    LowerUnchanged(address);
    StripOfUnpadded(address);
  }

  lemma CanonicalHasNoUppercase(address: string)
    requires |address| == 42 && address[0] == '0' && address[1] == 'x'
    requires forall i :: 2 <= i < 42 ==> ('0' <= address[i] <= '9') || ('a' <= address[i] <= 'f')
    ensures forall i :: 0 <= i < |address| ==> !('A' <= address[i] <= 'Z')
  {
  }

  /** One trailing newline after a string without whitespace at either end is all the strip removes. */
  lemma StripTrailingNewline(s: string)
    requires s != [] && !IsSpace(s[0]) && !IsSpace(s[|s| - 1])
    ensures Strip(s + "\n") == s
  {
    var t := s + "\n";
    assert t[0] == s[0];
    assert StripLeft(t) == t;
    assert t[..|t| - 1] == s;
    assert StripRight(t) == StripRight(s);
    StripOfUnpadded(s);
  }

  /** A canonical address followed by one newline still matches: `$` also matches before a final newline. */
  lemma PatternAdmitsNewline(address: string)
    requires |address| == 42 && address[0] == '0' && address[1] == 'x'
    requires forall i :: 2 <= i < 42 ==> ('0' <= address[i] <= '9') || ('a' <= address[i] <= 'f')
    ensures ValidateWalletAddress(address + "\n")
  {
    var s := address + "\n";
    assert forall i :: 0 <= i < 42 ==> s[i] == address[i];
    assert MatchesAddressPattern(s);
  }

  /**
   * The end anchor lets a canonical address followed by one newline pass the
   * check on its own, but the flow never sees that form: the strip removes
   * the newline first.
   */
  lemma TrailingNewline(address: string)
    requires |address| == 42 && address[0] == '0' && address[1] == 'x'
    requires forall i :: 2 <= i < 42 ==> ('0' <= address[i] <= '9') || ('a' <= address[i] <= 'f')
    ensures ValidateWalletAddress(address + "\n")
    ensures NormalizeAddress(address + "\n") == address
  {
    PatternAdmitsNewline(address);
    StripTrailingNewline(address);
    CanonicalHasNoUppercase(address);
    LowerUnchanged(address);
  }

  /** The entry title: the first six and last four characters around an ellipsis. */
  function Title(address: string): (t: string)
    ensures |t| == 17 + Min(|address|, 6) + Min(|address|, 4)
    ensures var m, n := Min(|address|, 6), Min(|address|, 4);
      && t[..13] == "Hyperliquid ("
      && t[13..13 + m] == address[..m]
      && t[13 + m..16 + m] == "..."
      && t[16 + m..16 + m + n] == address[|address| - n..]
      && t[16 + m + n] == ')'
  {
    "Hyperliquid (" + Take(address, 6) + "..." + LastN(address, 4) + ")"
  }

  /** For a stored address the title is 27 characters and shows "0x", four digits, and the last four digits. */
  lemma TitleOfAddress(address: string)
    requires |address| == 42
    ensures var t := Title(address);
      |t| == 27 && t[..13] == "Hyperliquid (" && t[13..19] == address[..6] &&
      t[19..22] == "..." && t[22..26] == address[38..] && t[26] == ')'
  {
  }

  datatype FlowResult =
    | CreateEntry(title: string, walletAddress: string, updateInterval: int)
    | ShowForm(error: Option<string>)
    | Abort(reason: string)

  /**
   * The user step. `input` is the submitted address (None when the form is
   * first shown), `configured` the addresses of existing entries, and
   * `connectionOk` the outcome of the account query made for the address.
   */
  function UserStep(input: Option<string>, configured: set<string>, connectionOk: bool): (r: FlowResult)
    ensures input.None? ==> r == ShowForm(None)
    ensures r == ShowForm(Some("invalid_wallet_address")) <==>
      input.Some? && !ValidateWalletAddress(NormalizeAddress(input.value))
    ensures r.Abort? <==>
      input.Some? && ValidateWalletAddress(NormalizeAddress(input.value)) && NormalizeAddress(input.value) in configured
    ensures r.Abort? ==> r.reason == "already_configured"
    ensures r == ShowForm(Some("cannot_connect")) <==>
      input.Some? && ValidateWalletAddress(NormalizeAddress(input.value)) &&
      NormalizeAddress(input.value) !in configured && !connectionOk
    ensures r.CreateEntry? <==>
      input.Some? && ValidateWalletAddress(NormalizeAddress(input.value)) &&
      NormalizeAddress(input.value) !in configured && connectionOk
    ensures r.CreateEntry? ==>
      r.walletAddress == NormalizeAddress(input.value) && |r.walletAddress| == 42 &&
      r.title == Title(r.walletAddress) && r.updateInterval == DefaultUpdateInterval
  {
    if input.None? then ShowForm(None)
    else
      var address := NormalizeAddress(input.value);
      if !ValidateWalletAddress(address) then ShowForm(Some("invalid_wallet_address"))
      else if address in configured then Abort("already_configured")
      else if !connectionOk then ShowForm(Some("cannot_connect"))
      else
        ValidNormalizedIsCanonical(input.value);
        CreateEntry(Title(address), address, DefaultUpdateInterval)
  }

  datatype OptionsResult =
    | OptionsForm(defaultInterval: int, outOfRange: bool)
    | OptionsSaved(updateInterval: int)

  /**
   * The options step. The form defaults to the stored interval (30 when
   * none is stored); a submitted interval is saved only within 10..300,
   * otherwise the form is shown again with a range error.
   */
  function OptionsStep(stored: Option<int>, submitted: Option<int>): (r: OptionsResult)
    ensures r.OptionsSaved? <==> submitted.Some? && MinUpdateInterval <= submitted.value <= MaxUpdateInterval
    ensures r.OptionsSaved? ==> r.updateInterval == submitted.value
    ensures r.OptionsForm? ==> r.defaultInterval == stored.GetOr(DefaultUpdateInterval) && (r.outOfRange <==> submitted.Some?)
  {
    match submitted
    case Some(v) =>
      if MinUpdateInterval <= v <= MaxUpdateInterval then OptionsSaved(v)
      else OptionsForm(stored.GetOr(DefaultUpdateInterval), true)
    case None => OptionsForm(stored.GetOr(DefaultUpdateInterval), false)
  }
}
