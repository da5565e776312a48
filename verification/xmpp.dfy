/**
 * The XMPP channel: its Jabber id, the server it connects to, its
 * one-line description and the validations of its configuration
 * (app/models/xmpp/xmpp_channel.rb).
 */
module Xmpp {
  import opened Common
  import opened Text
  import opened Seqs

  /** The port XMPP clients use when none is given. */
  const DefaultPort: int := 5222

  const CantBeBlank: string := "can't be blank"
  const NotANumber: string := "is not a number"
  const NotGreaterThanZero: string := "must be greater than 0"

  /** Line 7: each accessor reads one configuration key, nil when it is absent. */
  function Setting(configuration: map<string, string>, key: string): Option<string> {
    Lookup(configuration, key)
  }

  /** Lines 16-20: "user@domain", and "/resource" after it when the resource is present. */
  function Jid(configuration: map<string, string>): (r: string)
    ensures Show(Setting(configuration, "user")) + "@" + Show(Setting(configuration, "domain")) <= r
  {
    var resource := Setting(configuration, "resource");
    var jid := Show(Setting(configuration, "user")) + "@" + Show(Setting(configuration, "domain"));
    if !IsBlank(resource) then jid + "/" + resource.value else jid
  }

  /**
   * When the user holds no '@' and the domain no '/', the id splits back
   * at its first '@' into the user and the rest, and the rest holds a '/'
   * exactly when the resource is present, the resource following it.
   */
  lemma JidSplits(configuration: map<string, string>)
    requires '@' !in Show(Setting(configuration, "user")) && '/' !in Show(Setting(configuration, "domain"))
    ensures var j := Jid(configuration);
      var user := Show(Setting(configuration, "user"));
      var domain := Show(Setting(configuration, "domain"));
      var resource := Setting(configuration, "resource");
      && IndexOf(j, '@') == Some(|user|) && j[..|user|] == user
      && (IndexOf(j[|user| + 1..], '/').Some? <==> !IsBlank(resource))
      && (IsBlank(resource) ==> j[|user| + 1..] == domain)
      && (!IsBlank(resource) ==> j[|user| + 1..] == domain + "/" + resource.value)
  {
    var user := Show(Setting(configuration, "user"));
    var domain := Show(Setting(configuration, "domain"));
    var resource := Setting(configuration, "resource");
    var j := Jid(configuration);
    var rest := if IsBlank(resource) then domain else domain + "/" + resource.value;
    assert j == user + ['@'] + rest;
    IndexOfAfter(user, '@', rest);
    assert j[|user| + 1..] == rest;
    if !IsBlank(resource) {
      IndexOfAfter(domain, '/', resource.value);
    }
  }

  /** Lines 22-24: the configured server, or nil when it is blank. */
  function Server(configuration: map<string, string>): (r: Option<string>)
    ensures r.None? <==> IsBlank(Setting(configuration, "server"))
    ensures r.Some? ==> r.value == configuration["server"] && !IsBlank(Some(r.value))
  {
    Presence(Setting(configuration, "server"))
  }

  /** Line 39: nothing when `port.to_i` is the default port, else ":" and the port as configured. */
  function PortPart(port: Option<string>): (r: string)
    ensures r == [] <==> OptionToI(port) == DefaultPort
  {
    if OptionToI(port) == DefaultPort then "" else ":" + Show(port)
  }

  /** Lines 38-41: "user@domain", the port part, then "/" and the resource, even an empty one. */
  function Info(configuration: map<string, string>): (r: string)
    ensures EndsWith(r, "/" + Show(Setting(configuration, "resource")))
    ensures Show(Setting(configuration, "user")) + "@" + Show(Setting(configuration, "domain")) <= r
  {
    var head := Show(Setting(configuration, "user")) + "@" + Show(Setting(configuration, "domain"));
    var tail := "/" + Show(Setting(configuration, "resource"));
    var r := head + PortPart(Setting(configuration, "port")) + tail;
    assert r[|r| - |tail|..] == tail;
    assert r[..|head|] == head;
    r
  }

  /**
   * With no '@' in the user, the description splits at its first '@', and
   * the character after the domain is '/' exactly when the port is the
   * default one; otherwise ":" and the configured port come first.
   */
  lemma InfoPortOmitted(configuration: map<string, string>)
    requires '@' !in Show(Setting(configuration, "user"))
    ensures var s := Info(configuration);
      var user := Show(Setting(configuration, "user"));
      var domain := Show(Setting(configuration, "domain"));
      var port := Setting(configuration, "port");
      var resource := Show(Setting(configuration, "resource"));
      && IndexOf(s, '@') == Some(|user|)
      && s[|user| + 1..] == domain + PortPart(port) + "/" + resource
      && (OptionToI(port) == DefaultPort <==> s[|user| + 1 + |domain|] == '/')
  {
    var port := Setting(configuration, "port");
    var rest := Show(Setting(configuration, "domain")) + PortPart(port) + "/" + Show(Setting(configuration, "resource"));
    Regroup(Show(Setting(configuration, "user")), Show(Setting(configuration, "domain")), PortPart(port),
            Show(Setting(configuration, "resource")));
    AfterFirstAt(Show(Setting(configuration, "user")), rest);
    PortPartFirst(Show(Setting(configuration, "domain")), port, Show(Setting(configuration, "resource")));
  }

  lemma Regroup(user: string, domain: string, port: string, resource: string)
    ensures user + "@" + domain + port + ("/" + resource) == user + "@" + (domain + port + "/" + resource)
  {
  }

  /** With no '@' in `user`, "user@rest" splits back at its first '@'. */
  lemma AfterFirstAt(user: string, rest: string)
    requires '@' !in user
    ensures IndexOf(user + "@" + rest, '@') == Some(|user|) && (user + "@" + rest)[|user| + 1..] == rest
  {
    var s := user + "@" + rest;
    assert s == user + ['@'] + rest;
    IndexOfAfter(user, '@', rest);
  }

  /** After the domain comes '/' exactly when the port part is empty. */
  lemma PortPartFirst(domain: string, port: Option<string>, resource: string)
    ensures var rest := domain + PortPart(port) + "/" + resource;
      |domain| < |rest| && (OptionToI(port) == DefaultPort <==> rest[|domain|] == '/')
  {
    var rest := domain + PortPart(port) + "/" + resource;
    if OptionToI(port) != DefaultPort {
      assert rest[|domain|] == PortPart(port)[0] == ':';
    } else {
      assert rest == domain + "/" + resource;
    }
  }

  // ---------------------------------------------------------------------
  // Validations
  // ---------------------------------------------------------------------

  /** A decimal number as `Kernel.Float` reads it: a sign, digits and an optional fraction. */
  datatype Numeral = Numeral(negative: bool, whole: string, fraction: string)

  predicate AllDigits(s: string) {
    forall i :: 0 <= i < |s| ==> IsDigit(s[i])
  }

  /** How a numeral is written: its digits, then "." and the fraction when there is one. */
  function Spelling(n: Numeral): string {
    n.whole + (if n.fraction == [] then "" else "." + n.fraction)
  }

  /** A well-formed numeral: some digits, then a fraction of digits. */
  predicate WellFormed(n: Numeral) {
    n.whole != [] && AllDigits(n.whole) && AllDigits(n.fraction)
  }

  /** The stripped text is the numeral with its sign: "-" when negative, "+" or nothing otherwise. */
  predicate SignedSpelling(t: string, n: Numeral) {
    if n.negative then t == "-" + Spelling(n) else t == Spelling(n) || t == "+" + Spelling(n)
  }

  /** Digits and an optional "." with more digits, and nothing else. */
  function Unsigned(negative: bool, t: string): (r: Option<Numeral>)
    ensures r.Some? ==> WellFormed(r.value) && r.value.negative == negative && Spelling(r.value) == t
  {
    var whole := DigitPrefix(t);
    if whole == [] then None
    else if whole == t then Some(Numeral(negative, whole, ""))
    else if t[|whole|] == '.' && |whole| + 1 < |t| && AllDigits(t[|whole| + 1..]) then
      assert t == whole + ("." + t[|whole| + 1..]);
      Some(Numeral(negative, whole, t[|whole| + 1..]))
    else None
  }

  /** Every well-formed numeral, written out, is read back as itself. */
  lemma UnsignedReads(n: Numeral)
    requires WellFormed(n)
    ensures Unsigned(n.negative, Spelling(n)) == Some(n)
  {
    var t := Spelling(n);
    if n.fraction == [] {
      assert t == n.whole + [];
      DigitPrefixOf(n.whole, []);
    } else {
      assert t == n.whole + ("." + n.fraction);
      DigitPrefixOf(n.whole, "." + n.fraction);
      assert t[|n.whole| + 1..] == n.fraction;
    }
  }

  /** Digits followed by nothing or by a character that is not a digit: the digits are the digit prefix. */
  lemma DigitPrefixOf(w: string, rest: string)
    requires AllDigits(w) && (rest == [] || !IsDigit(rest[0]))
    ensures DigitPrefix(w + rest) == w
  {
    var s := w + rest;
    var r := DigitPrefix(s);
    assert r == s[..|w|] == w;
  }

  /** A stripped value as `Kernel.Float` reads it: an optional sign, then an unsigned numeral. */
  function Signed(t: string): (r: Option<Numeral>)
    ensures r.Some? ==> WellFormed(r.value) && SignedSpelling(t, r.value)
  {
    if |t| > 0 && (t[0] == '-' || t[0] == '+') then
      assert t == [t[0]] + t[1..];
      Unsigned(t[0] == '-', t[1..])
    else Unsigned(false, t)
  }

  /** A signed, well-formed numeral reads as itself. */
  lemma SignedReads(t: string, n: Numeral)
    requires WellFormed(n) && SignedSpelling(t, n)
    ensures Signed(t) == Some(n)
  {
    UnsignedReads(n);
    if n.negative || t == "+" + Spelling(n) {
      assert t[1..] == Spelling(n);
    } else {
      assert t[0] == n.whole[0];
    }
  }

  /** The number a configured port reads as, or nil when it is not a number. */
  function ParseNumber(v: Option<string>): (r: Option<Numeral>)
    ensures v.None? ==> r.None?
    ensures r.Some? ==> v.Some? && WellFormed(r.value) && SignedSpelling(Strip(v.value), r.value)
  {
    match v
    case None => None
    case Some(raw) => Signed(Strip(raw))
  }

  /** A value whose stripped text is a signed, well-formed numeral reads as that numeral. */
  lemma ParseNumberReads(raw: string, n: Numeral)
    requires WellFormed(n) && SignedSpelling(Strip(raw), n)
    ensures ParseNumber(Some(raw)) == Some(n)
  {
    SignedReads(Strip(raw), n);
  }

  /** A numeral denotes a value above zero: it is not negative and some digit is not '0'. */
  predicate Positive(n: Numeral) {
    !n.negative &&
    ((exists i :: 0 <= i < |n.whole| && n.whole[i] != '0') ||
     (exists i :: 0 <= i < |n.fraction| && n.fraction[i] != '0'))
  }

  /** Line 9: a "can't be blank" error on each of user, domain and password that is blank, in that order. */
  function PresenceErrors(configuration: map<string, string>): (r: seq<FieldError>)
    ensures r == [] <==> !IsBlank(Setting(configuration, "user")) && !IsBlank(Setting(configuration, "domain"))
                          && !IsBlank(Setting(configuration, "password"))
    ensures forall e :: e in r ==> e.message == CantBeBlank
  {
    (if IsBlank(Setting(configuration, "user")) then [FieldError("user", CantBeBlank)] else []) +
    (if IsBlank(Setting(configuration, "domain")) then [FieldError("domain", CantBeBlank)] else []) +
    (if IsBlank(Setting(configuration, "password")) then [FieldError("password", CantBeBlank)] else [])
  }

  /** Line 10: the port must read as a number, and that number must be above zero. */
  function NumericalityErrors(port: Option<string>): (r: seq<FieldError>)
    ensures |r| <= 1
    ensures r == [] <==> ParseNumber(port).Some? && Positive(ParseNumber(port).value)
    ensures r == [FieldError("port", NotANumber)] <==> ParseNumber(port).None?
  {
    match ParseNumber(port)
    case None => [FieldError("port", NotANumber)]
    case Some(n) => if Positive(n) then [] else [FieldError("port", NotGreaterThanZero)]
  }

  /** The errors the validations add to the channel. */
  function ValidationErrors(configuration: map<string, string>): seq<FieldError> {
    PresenceErrors(configuration) + NumericalityErrors(Setting(configuration, "port"))
  }

  /** Lines 9-10: the channel is valid exactly when user, domain and password are present and the port is a number above zero. */
  lemma ValidIff(configuration: map<string, string>)
    ensures ValidationErrors(configuration) == [] <==>
      && !IsBlank(Setting(configuration, "user"))
      && !IsBlank(Setting(configuration, "domain"))
      && !IsBlank(Setting(configuration, "password"))
      && ParseNumber(Setting(configuration, "port")).Some?
      && Positive(ParseNumber(Setting(configuration, "port")).value)
  {
  }

  /** A port that is missing, or reads as a number at most zero, is refused. */
  lemma PortRefused(configuration: map<string, string>)
    ensures !Setting(configuration, "port").Some? ==> FieldError("port", NotANumber) in ValidationErrors(configuration)
    ensures ParseNumber(Setting(configuration, "port")).Some? && !Positive(ParseNumber(Setting(configuration, "port")).value)
      ==> FieldError("port", NotGreaterThanZero) in ValidationErrors(configuration)
    ensures ParseNumber(Setting(configuration, "port")).Some? && ParseNumber(Setting(configuration, "port")).value.negative
      ==> FieldError("port", NotGreaterThanZero) in ValidationErrors(configuration)
  {
    var errors := ValidationErrors(configuration);
    var tail := NumericalityErrors(Setting(configuration, "port"));
    assert errors[|errors| - |tail|..] == tail;
    if tail != [] {
      assert tail[0] in errors;
    }
  }

  /** A port configured as "5222" passes the numericality check and is left out of the description. */
  lemma DefaultPortAccepted(configuration: map<string, string>)
    requires Setting(configuration, "port") == Some("5222")
    ensures NumericalityErrors(Setting(configuration, "port")) == []
    ensures Info(configuration) == Show(Setting(configuration, "user")) + "@" +
      Show(Setting(configuration, "domain")) + "/" + Show(Setting(configuration, "resource"))
  {
    DefaultPortReads();
    assert PortPart(Setting(configuration, "port")) == [];
    InfoWithoutPort(configuration);
  }

  lemma InfoWithoutPort(configuration: map<string, string>)
    requires PortPart(Setting(configuration, "port")) == []
    ensures Info(configuration) == Show(Setting(configuration, "user")) + "@" +
      Show(Setting(configuration, "domain")) + "/" + Show(Setting(configuration, "resource"))
  {
    var head := Show(Setting(configuration, "user")) + "@" + Show(Setting(configuration, "domain"));
    assert head + [] == head;
    AppendAssoc(head, "/", Show(Setting(configuration, "resource")));
  }

  /** "5222" reads as the default port and as a number above zero. */
  lemma DefaultPortReads()
    ensures OptionToI(Some("5222")) == DefaultPort
    ensures ParseNumber(Some("5222")) == Some(Numeral(false, "5222", "")) && Positive(Numeral(false, "5222", ""))
  {
    DigitsOf5222();
    StripStripped("5222");
    assert "5222"[0] != '0';
  }

  lemma DigitsOf5222()
    ensures DigitPrefix("5222") == "5222" && LStrip("5222") == "5222" && DigitsValue("5222") == 5222
  {
    assert AllDigits("5222");
    DigitPrefixOf("5222", []);
    assert "5222" + [] == "5222";
    ValueOf5222();
    assert !IsSpace("5222"[0]);
  }

  lemma ValueOf5222()
    ensures DigitsValue("5222") == 5222
  {
    assert DigitsValue("5") == 5 by { assert "5"[..0] == ""; }
    assert DigitsValue("52") == 52 by { assert "52"[..1] == "5"; }
    assert DigitsValue("522") == 522 by { assert "522"[..2] == "52"; }
    assert "5222"[..3] == "522";
  }
}
