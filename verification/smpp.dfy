/**
 * The SMPP channel handler: the configuration checks run before a channel
 * is saved, and the one-line description of the channel
 * (app/models/smpp/smpp_channel_handler.rb).
 */
module Smpp {
  import opened Common
  import opened Text
  import opened Seqs

  const CantBeBlank: string := "can't be blank"
  const NotPositive: string := "must be a positive number"

  /** Lines 10, 22 and 25: nil, or nothing left once a trailing line break is chomped. */
  predicate Blank(v: Option<string>) {
    v.None? || Chomp(v.value) == []
  }

  /** The "can't be blank" error on `field` when its value is blank. */
  function BlankError(field: string, v: Option<string>): (r: seq<FieldError>)
    ensures r == [] <==> !Blank(v)
    ensures forall e :: e in r ==> e == FieldError(field, CantBeBlank)
  {
    if Blank(v) then [FieldError(field, CantBeBlank)] else []
  }

  /** Lines 12-19: a nil port is blank, and a port whose `to_i` is not positive is rejected. */
  function PortErrors(port: Option<string>): (r: seq<FieldError>)
    ensures |r| <= 1
    ensures r == [] <==> port.Some? && ToI(port.value) > 0
    ensures FieldError("port", CantBeBlank) in r <==> port.None?
    ensures FieldError("port", NotPositive) in r <==> port.Some? && ToI(port.value) <= 0
    ensures forall e :: e in r ==> e.field == "port"
  {
    if port.None? then [FieldError("port", CantBeBlank)]
    else if ToI(port.value) <= 0 then [FieldError("port", NotPositive)]
    else []
  }

  /** The four settings pass every check of `check_valid`. */
  predicate ConfigurationValid(configuration: map<string, string>) {
    var port := Lookup(configuration, "port");
    !Blank(Lookup(configuration, "host")) && port.Some? && ToI(port.value) > 0 &&
    !Blank(Lookup(configuration, "user")) && !Blank(Lookup(configuration, "password"))
  }

  /** The errors `check_valid` adds, in the order it adds them. */
  function ValidationErrors(configuration: map<string, string>): seq<FieldError> {
    BlankError("host", Lookup(configuration, "host")) +
    PortErrors(Lookup(configuration, "port")) +
    BlankError("user", Lookup(configuration, "user")) +
    BlankError("password", Lookup(configuration, "password"))
  }

  /** Lines 8-26: a configuration draws no error exactly when it is valid. */
  lemma NoErrorsIffValid(configuration: map<string, string>)
    ensures ValidationErrors(configuration) == [] <==> ConfigurationValid(configuration)
  {
  }

  /** Each check adds its own error exactly when its setting fails it. */
  lemma ErrorsPerField(configuration: map<string, string>)
    ensures var errors := ValidationErrors(configuration);
      && (FieldError("host", CantBeBlank) in errors <==> Blank(Lookup(configuration, "host")))
      && (FieldError("user", CantBeBlank) in errors <==> Blank(Lookup(configuration, "user")))
      && (FieldError("password", CantBeBlank) in errors <==> Blank(Lookup(configuration, "password")))
      && (FieldError("port", CantBeBlank) in errors <==> !Lookup(configuration, "port").Some?)
      && (FieldError("port", NotPositive) in errors <==>
            Lookup(configuration, "port").Some? && ToI(Lookup(configuration, "port").value) <= 0)
  {
    var host := BlankError("host", Lookup(configuration, "host"));
    var port := PortErrors(Lookup(configuration, "port"));
    var user := BlankError("user", Lookup(configuration, "user"));
    var password := BlankError("password", Lookup(configuration, "password"));
    ErrorIn(host, port, user, password, FieldError("host", CantBeBlank));
    ErrorIn(host, port, user, password, FieldError("user", CantBeBlank));
    ErrorIn(host, port, user, password, FieldError("password", CantBeBlank));
    ErrorIn(host, port, user, password, FieldError("port", CantBeBlank));
    ErrorIn(host, port, user, password, FieldError("port", NotPositive));
  }

  /** An error is among the four groups exactly when it is in one of them. */
  lemma ErrorIn(host: seq<FieldError>, port: seq<FieldError>, user: seq<FieldError>, password: seq<FieldError>,
                e: FieldError)
    ensures e in host + port + user + password <==> e in host || e in port || e in user || e in password
  {
  }

  /** The port never draws more than one error. */
  lemma {:induction false} PortErrorAtMostOnce(configuration: map<string, string>)
    ensures var errors := ValidationErrors(configuration);
      forall i, j :: 0 <= i < j < |errors| ==> !(errors[i].field == "port" && errors[j].field == "port")
  {
    var host := BlankError("host", Lookup(configuration, "host"));
    var port := PortErrors(Lookup(configuration, "port"));
    var user := BlankError("user", Lookup(configuration, "user"));
    var password := BlankError("password", Lookup(configuration, "password"));
    var errors := ValidationErrors(configuration);
    assert errors == host + port + user + password;
    forall i | 0 <= i < |errors| && !(|host| <= i < |host| + |port|)
      ensures errors[i].field != "port"
    {
      if i < |host| {
        assert errors[i] in host;
      } else if i >= |host| + |port| + |user| {
        assert errors[i] == password[i - |host| - |port| - |user|];
        assert errors[i] in password;
      } else {
        assert errors[i] == user[i - |host| - |port|];
        assert errors[i] in user;
      }
    }
  }

  /** Lines 48-51: `info`, "user@host:port", a nil setting reading as empty. */
  function Info(configuration: map<string, string>): string {
    Show(Lookup(configuration, "user")) + "@" + Show(Lookup(configuration, "host")) + ":" +
    Show(Lookup(configuration, "port"))
  }

  /**
   * When the user holds no '@' and the host no ':', the description splits
   * back into the three settings at its first '@' and the first ':' after it.
   */
  lemma InfoSplits(configuration: map<string, string>)
    requires '@' !in Show(Lookup(configuration, "user")) && ':' !in Show(Lookup(configuration, "host"))
    ensures var s := Info(configuration);
      var user := Show(Lookup(configuration, "user"));
      var host := Show(Lookup(configuration, "host"));
      && IndexOf(s, '@') == Some(|user|) && s[..|user|] == user
      && IndexOf(s[|user| + 1..], ':') == Some(|host|)
      && s[|user| + 1..][..|host|] == host
      && s[|user| + 1..][|host| + 1..] == Show(Lookup(configuration, "port"))
  {
    SplitsAtSeparators(Show(Lookup(configuration, "user")), Show(Lookup(configuration, "host")),
                       Show(Lookup(configuration, "port")));
  }

  lemma SplitsAtSeparators(user: string, host: string, port: string)
    requires '@' !in user && ':' !in host
    ensures var s := user + "@" + host + ":" + port;
      && IndexOf(s, '@') == Some(|user|) && s[..|user|] == user
      && IndexOf(s[|user| + 1..], ':') == Some(|host|)
      && s[|user| + 1..][..|host|] == host
      && s[|user| + 1..][|host| + 1..] == port
  {
    var s := user + "@" + host + ":" + port;
    var after := host + [':'] + port;
    assert s == user + ['@'] + after;
    IndexOfAfter(user, '@', after);
    assert s[|user| + 1..] == after;
    IndexOfAfter(host, ':', port);
  }

  /** The handler of one SMPP channel, adding to that channel's `errors`. */
  class SmppChannelHandler {
    const configuration: map<string, string>
    var errors: seq<FieldError>

    constructor (configuration: map<string, string>)
      ensures this.configuration == configuration && errors == []
    {
      this.configuration := configuration;
      errors := [];
    }

    /** `check_valid`: adds host, port, user and password errors in that order. */
    method CheckValid()
      modifies this`errors
      ensures errors == old(errors) + ValidationErrors(configuration)
    {
      ghost var added: seq<FieldError> := [];
      var host := Lookup(configuration, "host");
      if Blank(host) {
        errors := errors + [FieldError("host", CantBeBlank)];
      }
      added := BlankError("host", host);
      assert errors == old(errors) + added;
      var port := Lookup(configuration, "port");
      if port.None? {
        AppendAssoc(old(errors), added, [FieldError("port", CantBeBlank)]);
        errors := errors + [FieldError("port", CantBeBlank)];
      } else {
        var portNum := ToI(port.value);
        if portNum <= 0 {
          AppendAssoc(old(errors), added, [FieldError("port", NotPositive)]);
          errors := errors + [FieldError("port", NotPositive)];
        } else {
          assert added + PortErrors(port) == added;
        }
      }
      added := added + PortErrors(port);
      assert errors == old(errors) + added;
      var user := Lookup(configuration, "user");
      if Blank(user) {
        AppendAssoc(old(errors), added, [FieldError("user", CantBeBlank)]);
        errors := errors + [FieldError("user", CantBeBlank)];
      } else {
        assert added + BlankError("user", user) == added;
      }
      added := added + BlankError("user", user);
      assert errors == old(errors) + added;
      var password := Lookup(configuration, "password");
      if Blank(password) {
        AppendAssoc(old(errors), added, [FieldError("password", CantBeBlank)]);
        errors := errors + [FieldError("password", CantBeBlank)];
      } else {
        assert added + BlankError("password", password) == added;
      }
      added := added + BlankError("password", password);
    }
  }
}
