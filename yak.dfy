/**
 The "settings to request" step of the yak command: the mandatory-setting
 checks, the message text, the payload record with its icon rule, and the
 webhook endpoint. What the command reads from flags and `yak.conf` arrives
 here as a `Settings` value; what it would print before exiting with status 1
 is the message of a `Fatal` result.
 */
module Yak {
  import opened GoStrings
  import opened Webhook

  /** The five resolved settings, after the config file and the flags are layered. */
  datatype Settings = Settings(
    domain: string,
    token: string,
    channel: string,
    username: string,
    icon: string)

  /** The built-in flag defaults, before any config file or flag is applied. */
  const Defaults := Settings("", "", "#general", "yakbot", ":speech_balloon:")

  /** The outcome of a step: a value, or the message printed before exiting with status 1. */
  datatype Result<T> = Ok(value: T) | Fatal(message: string)

  /** Either a value or nothing. */
  datatype Option<T> = None | Some(value: T)

  const DomainMissing := "Error: must provide a domain"
  const TokenMissing := "Error: must provide a token"

  /** The endpoint template; the two verbs take the domain and then the token. */
  const SlackURL := "https://%s.slack.com/services/hooks/incoming-webhook?token=%s"

  /** The pieces of the endpoint around the domain and the token. */
  const Scheme := "https://"
  const HostSuffix := ".slack.com"
  const HookQuery := "/services/hooks/incoming-webhook?token="

  /** What is sent: the endpoint it is posted to and the payload it carries. */
  datatype Request = Request(endpoint: string, payload: IncomingWebhook)

  /**
   The mandatory settings: the domain is checked first, then the token, each
   with its own message; the settings pass through unchanged when both are set.
   */
  function Validate(s: Settings): (r: Result<Settings>)
    ensures r.Ok? <==> s.domain != "" && s.token != ""
    ensures r.Ok? ==> r.value == s
    ensures s.domain == "" ==> r == Fatal(DomainMissing)
    ensures s.domain != "" && s.token == "" ==> r == Fatal(TokenMissing)
  {
    if s.domain == "" then Fatal(DomainMissing)
    else if s.token == "" then Fatal(TokenMissing)
    else Ok(s)
  }

  /**
   The message text: the positional arguments joined with single spaces. No
   arguments give the empty message, one argument is the message itself.
   Where each argument and each space lands is stated by `JoinArgsPlaces`.
   */
  function JoinArgs(args: seq<string>): (message: string)
    ensures args == [] ==> message == ""
    ensures |args| == 1 ==> message == args[0]
    ensures |args| > 0 ==> |message| == TotalLength(args) + |args| - 1
  {
    Join(args, " ")
  }

  /**
   Exactly one space separates neighbouring arguments: splitting the message
   on spaces gives the arguments back when none of them holds a space.
   */
  lemma JoinArgsSplit(args: seq<string>)
    requires |args| > 0
    requires forall i :: 0 <= i < |args| ==> ' ' !in args[i]
    ensures Split(JoinArgs(args), ' ') == args
  {
    SplitJoin(args, ' ');
  }

  /**
   Where the message puts each argument: argument `i` starts after the
   arguments before it, each followed by one space, and a space follows every
   argument but the last, whatever the arguments contain.
   */
  lemma JoinArgsPlaces(args: seq<string>, i: nat)
    requires i < |args|
    ensures var k := Offset(args, " ", i);
      k + |args[i]| <= |JoinArgs(args)| && JoinArgs(args)[k..k + |args[i]|] == args[i]
    ensures var k := Offset(args, " ", i) + |args[i]|;
      i + 1 < |args| ==> k < |JoinArgs(args)| && JoinArgs(args)[k] == ' '
  {
    JoinPlaces(args, " ", i);
    if i + 1 < |args| {
      var k := Offset(args, " ", i) + |args[i]|;
      JoinSeparator(args, " ", i);
      var gap := JoinArgs(args)[k..k + 1];
      assert gap == " " && gap[0] == JoinArgs(args)[k];
    }
  }

  /**
   The payload: channel, username and text copied through; an icon starting
   with `:` is an emoji code, any other non-empty icon is a URL, and an empty
   icon sets neither.
   */
  function BuildPayload(s: Settings, message: string): (p: IncomingWebhook)
    ensures p.channel == s.channel && p.username == s.username && p.text == message
    ensures HasPrefix(s.icon, ":") ==> p.iconEmoji == s.icon && p.iconURL == ""
    ensures !HasPrefix(s.icon, ":") && s.icon != "" ==> p.iconURL == s.icon && p.iconEmoji == ""
    ensures s.icon == "" ==> p.iconURL == "" && p.iconEmoji == ""
  {
    var payload := IncomingWebhook(s.channel, s.username, message, "", "");
    if HasPrefix(s.icon, ":") then payload.(iconEmoji := s.icon)
    else if s.icon != "" then payload.(iconURL := s.icon)
    else payload
  }

  /**
   The endpoint: the domain and the token put into the template as they are,
   with no escaping.
   */
  function EndpointURL(domain: string, token: string): (url: string)
    ensures url == Scheme + domain + (HostSuffix + HookQuery) + token
  {
    TemplatePieces();
    assert SlackURL == Scheme + "%s" + (HostSuffix + HookQuery) + "%s";
    SprintfTwoVerbs(SlackURL, Scheme, HostSuffix + HookQuery, domain, token);
    Sprintf(SlackURL, [domain, token])
  }

  /**
   The whole step: validate, then build the endpoint and the payload from the
   joined arguments.
   */
  function Prepare(s: Settings, args: seq<string>): (r: Result<Request>)
    ensures s.domain == "" ==> r == Fatal(DomainMissing)
    ensures s.domain != "" && s.token == "" ==> r == Fatal(TokenMissing)
    ensures r.Ok? <==> s.domain != "" && s.token != ""
    ensures r.Ok? ==> r.value == Request(EndpointURL(s.domain, s.token), BuildPayload(s, JoinArgs(args)))
  {
    match Validate(s)
    case Fatal(message) => Fatal(message)
    case Ok(settings) =>
      Ok(Request(EndpointURL(settings.domain, settings.token), BuildPayload(settings, JoinArgs(args))))
  }

  /** The icon a payload carries, whichever of its two fields holds it. */
  function IconOf(p: IncomingWebhook): string {
    p.iconEmoji + p.iconURL
  }

  /** The template is the scheme, a verb, the host suffix, the hook path and query, and a verb. */
  lemma TemplatePieces()
    ensures SlackURL == Scheme + "%s" + HostSuffix + HookQuery + "%s"
  {
    var head := "https://%s.slack.com";
    assert Scheme + "%s" == "https://%s";
    assert Scheme + "%s" + HostSuffix == head;
    TemplateTail();
    HookQueryPieces();
    Regroup3(head, "/services/hooks/", "incoming-webhook?token=");
  }

  /** The hook path and query, in two pieces. */
  lemma HookQueryPieces()
    ensures "/services/hooks/" + "incoming-webhook?token=" == HookQuery
  {
  }

  /** The template from the host suffix on, assembled piece by piece. */
  lemma TemplateTail()
    ensures "https://%s.slack.com" + "/services/hooks/" + "incoming-webhook?token=" + "%s" == SlackURL
  {
    TemplateTailPrefix();
    assert "https://%s.slack.com/services/hooks/incoming-webhook?token=" + "%s" == SlackURL;
  }

  /** The template without its final verb, assembled piece by piece. */
  lemma TemplateTailPrefix()
    ensures "https://%s.slack.com" + "/services/hooks/" + "incoming-webhook?token="
         == "https://%s.slack.com/services/hooks/incoming-webhook?token="
  {
    assert "https://%s.slack.com" + "/services/hooks/" == "https://%s.slack.com/services/hooks/";
  }

  /** Regrouping a concatenation of three strings. */
  lemma Regroup3(a: string, b: string, c: string)
    ensures a + b + c == a + (b + c)
  {
  }

  /**
   Reads the domain and the token back out of an endpoint: the domain is what
   lies between the scheme and the host suffix before the first `/`.
   */
  function ParseEndpoint(u: string): Option<(string, string)> {
    if !HasPrefix(u, Scheme) then None
    else
      var rest := u[|Scheme|..];
      var slash := FirstIndex(rest, '/');
      if slash < |HostSuffix| then None
      else
        var end := slash - |HostSuffix|;
        if !HasPrefix(rest[end..], HostSuffix + HookQuery) then None
        else Some((rest[..end], rest[end + |HostSuffix + HookQuery|..]))
  }

  /** A domain without `/` and any token are recovered from the endpoint they make. */
  lemma ParseEndpointRoundTrip(domain: string, token: string)
    requires '/' !in domain
    ensures ParseEndpoint(EndpointURL(domain, token)) == Some((domain, token))
  {
    ParseAssembled(domain, token);
  }

  /** `ParseEndpoint` undoes the assembly of an endpoint from a domain without `/`. */
  lemma ParseAssembled(domain: string, token: string)
    requires '/' !in domain
    ensures ParseEndpoint(Scheme + domain + (HostSuffix + HookQuery) + token) == Some((domain, token))
  {
    var middle := HostSuffix + HookQuery;
    var rest := domain + middle + token;
    var u := Scheme + domain + middle + token;
    Regroup3(Scheme + domain, middle, token);
    Regroup3(Scheme, domain, middle + token);
    Regroup3(domain, middle, token);
    assert u == Scheme + rest;
    PrefixOfConcat(Scheme, rest);
    assert u[|Scheme|..] == rest;
    FirstSlash(domain, token);
    assert rest[|domain|..] == middle + token;
    PrefixOfConcat(middle, token);
    assert rest[..|domain|] == domain;
    assert rest[|domain| + |middle|..] == token;
  }

  /** The first `/` after the scheme is the one that starts the hook path. */
  lemma FirstSlash(domain: string, token: string)
    requires '/' !in domain
    ensures FirstIndex(domain + (HostSuffix + HookQuery) + token, '/') == |domain| + |HostSuffix|
  {
    var rest := domain + (HostSuffix + HookQuery) + token;
    var k := |domain| + |HostSuffix|;
    HostBoundary();
    assert rest[k] == HookQuery[0];
    forall j | 0 <= j < k ensures rest[j] != '/' {
      if j < |domain| {
        assert rest[j] == domain[j];
      } else {
        assert rest[j] == HostSuffix[j - |domain|];
      }
    }
  }

  /** The host suffix has no `/` and the hook path starts with one. */
  lemma HostBoundary()
    ensures '/' !in HostSuffix
    ensures |HookQuery| > 0 && HookQuery[0] == '/'
  {
  }

  /**
   Whatever `ParseEndpoint` accepts is the endpoint of the domain and token it
   returns, and that domain has no `/`.
   */
  lemma ParseEndpointSound(u: string, domain: string, token: string)
    requires ParseEndpoint(u) == Some((domain, token))
    ensures '/' !in domain
    ensures u == EndpointURL(domain, token)
  {
    ParseSplits(u, domain, token);
  }

  /** What `ParseEndpoint` accepts is assembled from the domain and token it returns. */
  lemma ParseSplits(u: string, domain: string, token: string)
    requires ParseEndpoint(u) == Some((domain, token))
    ensures '/' !in domain
    ensures u == Scheme + domain + (HostSuffix + HookQuery) + token
  {
    var middle := HostSuffix + HookQuery;
    var rest := u[|Scheme|..];
    var slash := FirstIndex(rest, '/');
    var end := slash - |HostSuffix|;
    PrefixSplit(u, Scheme);
    assert domain == rest[..end];
    var after := rest[end..];
    assert token == after[|middle|..];
    PrefixSplit(after, middle);
    assert rest == domain + after;
    Regroup3(Scheme, domain, after);
    Regroup3(Scheme + domain, middle, token);
  }

  /**
   Because nothing is escaped, a domain holding the rest of the template
   makes the same endpoint as a shorter domain with a longer token.
   */
  lemma EndpointAmbiguous(a: string, b: string, c: string)
    ensures a + (HostSuffix + HookQuery) + b != a
    ensures EndpointURL(a + (HostSuffix + HookQuery) + b, c)
         == EndpointURL(a, b + (HostSuffix + HookQuery) + c)
  {
    var m := HostSuffix + HookQuery;
    Regroup3(Scheme, a + m + b, m + c);
    Regroup3(Scheme + a, m, b + m + c);
  }

  /** An icon ends up in exactly one of the two icon fields, and never in both. */
  lemma IconExclusive(s: Settings, message: string)
    ensures var p := BuildPayload(s, message);
      !(p.iconEmoji != "" && p.iconURL != "") && IconOf(p) == s.icon
    ensures var p := BuildPayload(s, message);
      p.iconEmoji != "" <==> HasPrefix(s.icon, ":")
  {
  }

  /** The serialised payload never carries both an `icon_url` and an `icon_emoji` key. */
  lemma IconKeysExclusive(s: Settings, message: string)
    ensures var keys := PresentKeys(BuildPayload(s, message));
      !("icon_url" in keys && "icon_emoji" in keys)
    ensures var keys := PresentKeys(BuildPayload(s, message));
      "icon_emoji" in keys <==> HasPrefix(s.icon, ":")
    ensures var keys := PresentKeys(BuildPayload(s, message));
      "icon_url" in keys <==> !HasPrefix(s.icon, ":") && s.icon != ""
  {
    var p := BuildPayload(s, message);
    PresentKeysIff(p, IconURL);
    PresentKeysIff(p, IconEmoji);
  }

  /**
   No arguments give an empty message, which is not rejected: the request is
   built and its serialised payload has no `text` key.
   */
  lemma EmptyMessageSent(s: Settings)
    requires s.domain != "" && s.token != ""
    ensures Prepare(s, []).Ok?
    ensures "text" !in PresentKeys(Prepare(s, []).value.payload)
  {
    PresentKeysIff(Prepare(s, []).value.payload, Text);
  }

  /**
   A request built from valid settings delivers them: the endpoint gives back
   the domain and the token, and the serialised payload gives back the
   channel, the username, the icon and, when no argument holds a space, the
   arguments.
   */
  lemma PrepareDelivers(s: Settings, args: seq<string>)
    requires s.domain != "" && s.token != "" && '/' !in s.domain
    ensures Prepare(s, args).Ok?
    ensures ParseEndpoint(Prepare(s, args).value.endpoint) == Some((s.domain, s.token))
    ensures var p := Unmarshal(Marshal(Prepare(s, args).value.payload));
      p.channel == s.channel && p.username == s.username && IconOf(p) == s.icon
    ensures (|args| > 0 && forall i :: 0 <= i < |args| ==> ' ' !in args[i]) ==>
      Split(Unmarshal(Marshal(Prepare(s, args).value.payload)).text, ' ') == args
  {
    var r := Prepare(s, args);
    ParseEndpointRoundTrip(s.domain, s.token);
    MarshalRoundTrip(r.value.payload);
    if |args| > 0 && forall i :: 0 <= i < |args| ==> ' ' !in args[i] {
      JoinArgsSplit(args);
    }
  }

  /** With the built-in defaults alone there is no domain, so the command stops. */
  lemma DefaultsNeedDomain(args: seq<string>)
    ensures Prepare(Defaults, args) == Fatal(DomainMissing)
  {
  }

  /**
   An example run: the defaults with domain `acme`, token `abc123` and the
   arguments `hello` and `world`. The inputs are parameters pinned by the
   precondition, so that the verifier does not evaluate the template on
   literal arguments character by character.
   */
  lemma DefaultsExample(domain: string, token: string, args: seq<string>)
    requires domain == "acme" && token == "abc123" && args == ["hello", "world"]
    ensures var r := Prepare(Defaults.(domain := domain, token := token), args);
      r.Ok? &&
      r.value.endpoint == "https://acme.slack.com/services/hooks/incoming-webhook?token=abc123" &&
      r.value.payload == IncomingWebhook("#general", "yakbot", "hello world", "", ":speech_balloon:")
  {
    ExampleEndpointText(domain, token);
    ExampleMessage(args);
  }

  /** The example endpoint, spelled out. */
  lemma ExampleEndpointText(domain: string, token: string)
    requires domain == "acme" && token == "abc123"
    ensures Scheme + domain + (HostSuffix + HookQuery) + token
         == "https://acme.slack.com/services/hooks/incoming-webhook?token=abc123"
  {
    HookQueryPieces();
    Regroup3(HostSuffix, "/services/hooks/", "incoming-webhook?token=");
    Regroup3(Scheme + domain, HostSuffix, HookQuery);
    Regroup3(Scheme + domain + HostSuffix, "/services/hooks/", "incoming-webhook?token=");
    ExampleHostPath();
    ExampleQueryToken();
  }

  /** The example endpoint up to the hook query. */
  lemma ExampleHostPath()
    ensures Scheme + "acme" + HostSuffix + "/services/hooks/" == "https://acme.slack.com/services/hooks/"
  {
    assert Scheme + "acme" + HostSuffix == "https://acme.slack.com";
  }

  /** The example endpoint from the hook query to the token. */
  lemma ExampleQueryToken()
    ensures "https://acme.slack.com/services/hooks/" + "incoming-webhook?token=" + "abc123"
         == "https://acme.slack.com/services/hooks/incoming-webhook?token=abc123"
  {
    assert "https://acme.slack.com/services/hooks/" + "incoming-webhook?token="
        == "https://acme.slack.com/services/hooks/incoming-webhook?token=";
  }

  /** The example message, joined. */
  lemma ExampleMessage(args: seq<string>)
    requires args == ["hello", "world"]
    ensures JoinArgs(args) == "hello world"
  {
    assert args[1..] == ["world"];
    assert Join(args[1..], " ") == "world";
    assert Join(args, " ") == "hello" + " " + "world";
  }

  /** The payload built from the defaults and a non-empty message has the keys channel, username, text and icon_emoji. */
  lemma DefaultsExampleKeys(message: string)
    requires message != ""
    ensures PresentKeys(BuildPayload(Defaults, message)) == ["channel", "username", "text", "icon_emoji"]
  {
    var p := BuildPayload(Defaults, message);
    assert p == IncomingWebhook("#general", "yakbot", message, "", ":speech_balloon:");
    assert Fields == [Channel] + ([Username] + ([Text] + ([IconURL] + ([IconEmoji] + []))));
    MembersOfCons(p, IconEmoji, []);
    MembersOfCons(p, IconURL, [IconEmoji]);
    MembersOfCons(p, Text, [IconURL, IconEmoji]);
    MembersOfCons(p, Username, [Text, IconURL, IconEmoji]);
    MembersOfCons(p, Channel, [Username, Text, IconURL, IconEmoji]);
    assert Marshal(p) == [("channel", "#general"), ("username", "yakbot"), ("text", message),
                          ("icon_emoji", ":speech_balloon:")];
  }
}
