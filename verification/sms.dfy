/**
 * The SMS message builder (package `sms`): a mutable draft bound to a
 * transport, fluent setters, the validation that turns the draft into form
 * parameters, and the send operations.
 */
module Sms {
  import opened Wrappers
  import opened Text
  import opened Http
  import Core

  /** The routing category of a message. Any string can be set; these are the named ones. */
  type Channel = string
  const ChannelRegular: Channel := "NON-2FA"
  const ChannelOTP: Channel := "2FA"
  const ChannelDefault: Channel := "DEFAULT"
  const ChannelLongNumber: Channel := "LONGNUMBER"

  const EndpointSend: string := "api/v1/send"

  /** The status code of a successful call (`http.StatusOK`). */
  const StatusOK: int := 200

  datatype SmsError =
    | CoreFailure(cause: Core.CoreError)
    | EmptySenderId
    | EmptyContent
    | EmptyDestination
    | ReadFailure(reason: string)
    | HttpStatus(code: int)
    | DecodeFailure(reason: string)

  /** The text of each error as the client reports it: fixed texts for the
      validation errors, the status code written right after "http status
      code", and the causes from elsewhere passed on as they are. */
  function Message(e: SmsError): (r: string)
    ensures e.HttpStatus? ==> |r| > 16 && r[..16] == "http status code" && r[16..] == Itoa(e.code)
    ensures e.CoreFailure? ==> r == Core.Message(e.cause)
    ensures e.ReadFailure? || e.DecodeFailure? ==> r == e.reason
  {
    match e
    case CoreFailure(cause) => Core.Message(cause)
    case EmptySenderId => "sender id must not empty"
    case EmptyContent => "message content must not empty"
    case EmptyDestination => "destination content must not empty"
    case ReadFailure(reason) => reason
    case HttpStatus(code) => "http status code" + Itoa(code)
    case DecodeFailure(reason) => reason
  }

  /** The message of a status error names the status: two statuses never share one. */
  lemma HttpStatusMessageNamesCode(a: int, b: int)
    requires Message(HttpStatus(a)) == Message(HttpStatus(b))
    ensures a == b
  {
    var prefix := "http status code";
    assert Itoa(a) == Message(HttpStatus(a))[|prefix|..];
    assert Itoa(b) == Message(HttpStatus(b))[|prefix|..];
    ItoaInjective(a, b);
  }

  /** The three validation errors have three different messages, and none of
      them reads like a status error. */
  lemma ValidationMessagesDistinct(e: SmsError, f: SmsError, code: int)
    requires e.EmptySenderId? || e.EmptyContent? || e.EmptyDestination?
    requires f.EmptySenderId? || f.EmptyContent? || f.EmptyDestination?
    ensures Message(e) == Message(f) <==> e == f
    ensures Message(e) != Message(HttpStatus(code))
  {
    assert Message(e)[0] != Message(HttpStatus(code))[0];
    if e != f {
      assert Message(e)[0] != Message(f)[0] || |Message(e)| != |Message(f)|;
    }
  }

  /** The fields of a builder that the parameters are made from. */
  datatype Draft = Draft(
    moduleName: Core.Module,
    channel: Channel,
    destinations: seq<string>,
    sid: string,
    content: string,
    template: string)

  /** What `urlValues` returns: the values added so far and the error, if any.
      On an error the values added before the failing check are still there. */
  datatype Built = Built(pairs: seq<Pair>, err: Option<SmsError>)

  /** The parameters of a draft, check by check in the order of `urlValues`.
      The second check re-tests the sender id where the content was meant, so
      it can never fire after the first one has passed. */
  function Params(d: Draft): (r: Built)
    ensures r.err.None? <==> d.sid != [] && d.destinations != []
    ensures r.err != Some(EmptyContent)
    ensures r.err == Some(EmptySenderId) <==> d.sid == []
    ensures |r.pairs| >= 2 && r.pairs[0] == ("module", d.moduleName) && r.pairs[1] == ("sub_module", d.channel)
  {
    var base := [("module", d.moduleName), ("sub_module", d.channel)];
    if |d.sid| <= 0 then Built(base, Some(EmptySenderId))
    else
      var withSid := base + [("sid", d.sid)];
      if |d.sid| <= 0 then Built(withSid, Some(EmptyContent))
      else
        var withContent := withSid + [("content", d.content)];
        var withTemplate := withContent + TemplatePart(d.template);
        if |d.destinations| <= 0 then Built(withTemplate, Some(EmptyDestination))
        else Built(withTemplate + [("destination", Join(d.destinations, ","))], None)
  }

  /** The optional `template_name` parameter: added when the template is not
      empty once trimmed, and then with the untrimmed template as its value. */
  function TemplatePart(template: string): seq<Pair>
  {
    if |TrimSpace(template)| > 0 then [("template_name", template)] else []
  }

  /** `template_name` is sent exactly when the template holds a character
      other than white space, and its value is the template as set. */
  lemma TemplateSentIffNotBlank(template: string)
    ensures TemplatePart(template) == if IsBlank(template) then [] else [("template_name", template)]
  {
    TrimSpaceEmptyIffBlank(template);
  }

  /** A well-formed draft (sender id and at least one destination) always
      validates, and the parameters are exactly `module`, `sub_module`, `sid`,
      `content`, the optional `template_name` and `destination`, in that order. */
  lemma ParamsOfValidDraft(d: Draft)
    requires d.sid != [] && d.destinations != []
    ensures Params(d).err == None
    ensures Params(d).pairs ==
      [("module", d.moduleName), ("sub_module", d.channel), ("sid", d.sid), ("content", d.content)]
      + (if IsBlank(d.template) then [] else [("template_name", d.template)])
      + [("destination", Join(d.destinations, ","))]
  {
    var base := [("module", d.moduleName), ("sub_module", d.channel), ("sid", d.sid), ("content", d.content)];
    assert Params(d).pairs == base + TemplatePart(d.template) + [("destination", Join(d.destinations, ","))];
    TemplateSentIffNotBlank(d.template);
  }

  /** The multimap view of the parameters of a validated draft, split by the
      `Add` call each value comes from. */
  lemma ParamsValuesSplit(d: Draft, key: string)
    requires d.sid != [] && d.destinations != []
    ensures ValuesOf(Params(d).pairs, key)
      == ValuesOf([("module", d.moduleName)], key) + ValuesOf([("sub_module", d.channel)], key)
         + ValuesOf([("sid", d.sid)], key) + ValuesOf([("content", d.content)], key)
         + ValuesOf(TemplatePart(d.template), key)
         + ValuesOf([("destination", Join(d.destinations, ","))], key)
  {
    var m, c := ("module", d.moduleName), ("sub_module", d.channel);
    var base := [m, c];
    var withSid := base + [("sid", d.sid)];
    var withContent := withSid + [("content", d.content)];
    var withTemplate := withContent + TemplatePart(d.template);
    var j := [("destination", Join(d.destinations, ","))];
    assert Params(d).pairs == withTemplate + j;
    ValuesOfAppend(withTemplate, j, key);
    ValuesOfAppend(withContent, TemplatePart(d.template), key);
    ValuesOfAppend(withSid, [("content", d.content)], key);
    ValuesOfAppend(base, [("sid", d.sid)], key);
    assert base == [m] + [c];
    ValuesOfAppend([m], [c], key);
  }

  /** The values of `key` in the parameters of a validated draft. */
  lemma ParamsValuesOf(d: Draft, key: string)
    requires d.sid != [] && d.destinations != []
    ensures ValuesOf(Params(d).pairs, key)
      == (if key == "module" then [d.moduleName] else [])
         + (if key == "sub_module" then [d.channel] else [])
         + (if key == "sid" then [d.sid] else [])
         + (if key == "content" then [d.content] else [])
         + (if key == "template_name" && !IsBlank(d.template) then [d.template] else [])
         + (if key == "destination" then [Join(d.destinations, ",")] else [])
  {
    ParamsValuesSplit(d, key);
    ValuesOfSingle("module", d.moduleName, key);
    ValuesOfSingle("sub_module", d.channel, key);
    ValuesOfSingle("sid", d.sid, key);
    ValuesOfSingle("content", d.content, key);
    ValuesOfSingle("destination", Join(d.destinations, ","), key);
    TemplateSentIffNotBlank(d.template);
    if !IsBlank(d.template) {
      ValuesOfSingle("template_name", d.template, key);
    }
  }

  /** In the multimap the server receives, every key of a validated draft has
      exactly one value; `template_name` has one or none. */
  lemma ParamsHaveOneValuePerKey(d: Draft)
    requires d.sid != [] && d.destinations != []
    ensures var p := Params(d).pairs;
      && ValuesOf(p, "module") == [d.moduleName]
      && ValuesOf(p, "sub_module") == [d.channel]
      && ValuesOf(p, "sid") == [d.sid]
      && ValuesOf(p, "content") == [d.content]
      && ValuesOf(p, "template_name") == (if IsBlank(d.template) then [] else [d.template])
      && ValuesOf(p, "destination") == [Join(d.destinations, ",")]
  {
    ParamsValuesOf(d, "module");
    ParamsValuesOf(d, "sub_module");
    ParamsValuesOf(d, "sid");
    ParamsValuesOf(d, "content");
    ParamsValuesOf(d, "template_name");
    ParamsValuesOf(d, "destination");
  }

  /** An empty sender id is reported whatever the other fields hold, and only
      `module` and `sub_module` have been added by then. */
  lemma EmptySenderIdFirst(d: Draft)
    requires d.sid == []
    ensures Params(d) == Built([("module", d.moduleName), ("sub_module", d.channel)], Some(EmptySenderId))
  {
  }

  /** The content check never reports anything: an empty content is sent as
      `content=""`. */
  lemma EmptyContentNeverReported(d: Draft)
    ensures Params(d).err != Some(EmptyContent)
    ensures d.sid != [] ==> ("content", d.content) in Params(d).pairs
  {
    if d.sid != [] {
      var p := Params(d).pairs;
      assert p[3] == ("content", d.content);
    }
  }

  /** With a sender id but no destination, the error is the destination one,
      and `sid`, `content` and the optional template have already been added. */
  lemma EmptyDestinationAfterContent(d: Draft)
    requires d.sid != [] && d.destinations == []
    ensures Params(d) == Built(
      [("module", d.moduleName), ("sub_module", d.channel), ("sid", d.sid), ("content", d.content)]
      + (if IsBlank(d.template) then [] else [("template_name", d.template)]),
      Some(EmptyDestination))
  {
    TemplateSentIffNotBlank(d.template);
  }

  /** The destinations added in two batches are sent in order, without
      de-duplication, separated by one comma. */
  lemma DestinationsJoinInOrder(earlier: seq<string>, added: seq<string>)
    requires earlier != [] && added != []
    ensures Join(earlier + added, ",") == Join(earlier, ",") + "," + Join(added, ",")
  {
    JoinAppend(earlier, added, ",");
  }

  /** Adding `0811` and `0822`, then `0833`, sends `0811,0822,0833`. */
  lemma DestinationExample()
    ensures Join(["0811", "0822"] + ["0833"], ",") == "0811,0822,0833"
  {
    DestinationsJoinInOrder(["0811", "0822"], ["0833"]);
    assert Join(["0811", "0822"], ",") == "0811,0822";
  }

  /** The request that sends the parameters `pairs` through the transport `c`. */
  function SendRequest(c: Core.Core, pairs: seq<Pair>): Request
  {
    PostForm(Core.BaseUrl(c) + "/" + EndpointSend, pairs + Core.Credentials(c))
  }

  /** What a send returns once the transport has answered: a transport error,
      then a body that cannot be read, then a status other than 200, then a body
      that does not decode are errors; only a decoded 200 reply succeeds. */
  function Outcome(res: Result<Reply, Core.CoreError>, decode: string -> Result<Core.Response, string>)
    : (r: Result<Core.Response, SmsError>)
    ensures r.Ok? <==>
      res.Ok? && res.value.body.Ok? && res.value.status == StatusOK && decode(res.value.body.value).Ok?
    ensures r.Ok? ==> r.value == decode(res.value.body.value).value
    ensures res.Ok? && res.value.body.Ok? && res.value.status != StatusOK ==>
      r == Err(HttpStatus(res.value.status))
    ensures res.Err? ==> r == Err(CoreFailure(res.error))
    ensures res.Ok? && res.value.body.Err? ==> r == Err(ReadFailure(res.value.body.error))
    ensures (res.Ok? && res.value.body.Ok? && res.value.status == StatusOK
             && decode(res.value.body.value).Err?) ==>
      r == Err(DecodeFailure(decode(res.value.body.value).error))
  {
    match res
    case Err(e) => Err(CoreFailure(e))
    case Ok(reply) =>
      match reply.body
      case Err(reason) => Err(ReadFailure(reason))
      case Ok(bytes) =>
        if reply.status != StatusOK then Err(HttpStatus(reply.status))
        else
          match decode(bytes)
          case Err(reason) => Err(DecodeFailure(reason))
          case Ok(response) => Ok(response)
  }

  /** The message builder: a draft and the transport it is sent through. */
  class Sms {
    var core: Core.Core
    var moduleName: Core.Module
    var channel: Channel
    var destinations: seq<string>
    var sid: string
    var content: string
    var template: string

    /** A builder for the SMS module on `channel`, with an empty draft. */
    constructor (core: Core.Core, channel: Channel)
      ensures this.core == core && moduleName == Core.ModuleSms && this.channel == channel
      ensures IsEmptyDraft()
    {
      this.core := core;
      this.channel := channel;
      moduleName := Core.ModuleSms;
      destinations := [];
      sid := "";
      content := "";
      template := "";
    }

    /** No sender id, content, template or destination. */
    predicate IsEmptyDraft()
      reads this
    {
      destinations == [] && sid == "" && content == "" && template == ""
    }

    function State(): Draft
      reads this
    {
      Draft(moduleName, channel, destinations, sid, content, template)
    }

    method SetSenderId(senderId: string) returns (self: Sms)
      modifies this`sid
      ensures self == this && sid == senderId
    {
      sid := senderId;
      return this;
    }

    method SetChannel(channelType: Channel) returns (self: Sms)
      modifies this`channel
      ensures self == this && channel == channelType
    {
      channel := channelType;
      return this;
    }

    method SetContent(strContent: string) returns (self: Sms)
      modifies this`content
      ensures self == this && content == strContent
    {
      content := strContent;
      return this;
    }

    method SetTemplate(templateName: string) returns (self: Sms)
      modifies this`template
      ensures self == this && template == templateName
    {
      template := templateName;
      return this;
    }

    /** Appends the numbers, in the order given, after those already there. */
    method AddDestination(phoneNumbers: seq<string>) returns (self: Sms)
      modifies this`destinations
      ensures self == this && destinations == old(destinations) + phoneNumbers
    {
      destinations := destinations + phoneNumbers;
      return this;
    }

    method EmptyDestination() returns (self: Sms)
      modifies this`destinations
      ensures self == this && destinations == []
    {
      destinations := [];
      return this;
    }

    /** Clears sender id, content, template and destinations; the transport,
        module and channel stay. A draft just reset fails validation on its
        sender id. */
    method Reset() returns (self: Sms)
      modifies this`sid, this`content, this`template, this`destinations
      ensures self == this && IsEmptyDraft()
      ensures Params(State()).err == Some(EmptySenderId)
    {
      var s1 := SetSenderId("");
      var s2 := s1.SetContent("");
      var s3 := s2.SetTemplate("");
      self := s3.EmptyDestination();
    }

    /** `urlValues`: builds the parameters with `Add`, returning early on the
        first failing check. */
    method UrlValues() returns (data: Values, err: Option<SmsError>)
      ensures fresh(data)
      ensures data.pairs == Params(State()).pairs && err == Params(State()).err
    {
      ghost var d := State();
      data := new Values();
      data.Add("module", moduleName);
      data.Add("sub_module", channel);

      if |sid| <= 0 {
        EmptySenderIdFirst(d);
        return data, Some(EmptySenderId);
      }
      data.Add("sid", sid);

      if |sid| <= 0 {
        return data, Some(EmptyContent);
      }
      data.Add("content", content);
      assert data.pairs == [("module", d.moduleName), ("sub_module", d.channel), ("sid", d.sid), ("content", d.content)];

      if |TrimSpace(template)| > 0 {
        data.Add("template_name", template);
      }
      TemplateSentIffNotBlank(template);
      assert data.pairs == [("module", d.moduleName), ("sub_module", d.channel), ("sid", d.sid), ("content", d.content)]
        + (if IsBlank(template) then [] else [("template_name", template)]);

      if |destinations| <= 0 {
        EmptyDestinationAfterContent(d);
        return data, Some(SmsError.EmptyDestination);
      }
      data.Add("destination", Join(destinations, ","));
      ParamsOfValidDraft(d);

      return data, None;
    }

    /** `Send`: an invalid draft is refused before the transport is used;
        otherwise one POST of the parameters and the credentials goes out and
        its reply decides the result. The draft is not changed. */
    method Send(net: Network, decode: string -> Result<Core.Response, string>)
      returns (r: Result<Core.Response, SmsError>)
      modifies net
      ensures Params(State()).err.Some? ==>
        r == Err(Params(State()).err.value) && net.sent == old(net.sent)
      ensures Params(State()).err.None? ==>
        var req := SendRequest(core, Params(State()).pairs);
        net.sent == old(net.sent) + [req] && r == Outcome(Core.FromNetwork(net.respond(req)), decode)
    {
      var data, err := UrlValues();
      if err.Some? {
        return Err(err.value);
      }
      r := Deliver(data, net, decode);
    }

    /** `SendAt`: as `Send`, with `schedule_time` added after validation and
        before the credentials. The time arrives already formatted. */
    method SendAt(scheduleTime: string, net: Network, decode: string -> Result<Core.Response, string>)
      returns (r: Result<Core.Response, SmsError>)
      modifies net
      ensures Params(State()).err.Some? ==>
        r == Err(Params(State()).err.value) && net.sent == old(net.sent)
      ensures Params(State()).err.None? ==>
        var req := SendRequest(core, Params(State()).pairs + [("schedule_time", scheduleTime)]);
        net.sent == old(net.sent) + [req] && r == Outcome(Core.FromNetwork(net.respond(req)), decode)
    {
      var data, err := UrlValues();
      if err.Some? {
        return Err(err.value);
      }
      data.Add("schedule_time", scheduleTime);
      r := Deliver(data, net, decode);
    }

    /** The part `Send` and `SendAt` share: the POST, reading the body, the
        status check and decoding. */
    method Deliver(data: Values, net: Network, decode: string -> Result<Core.Response, string>)
      returns (r: Result<Core.Response, SmsError>)
      modifies data, net
      ensures data.pairs == old(data.pairs) + Core.Credentials(core)
      ensures
        var req := SendRequest(core, old(data.pairs));
        net.sent == old(net.sent) + [req] && r == Outcome(Core.FromNetwork(net.respond(req)), decode)
    {
      var resp := Core.ConsumeAPI(core, Core.MethodPost, EndpointSend, data, net);
      if resp.Err? {
        return Err(CoreFailure(resp.error));
      }
      var reply := resp.value;
      if reply.body.Err? {
        return Err(ReadFailure(reply.body.error));
      }
      var bytesResp := reply.body.value;
      if reply.status != StatusOK {
        return Err(HttpStatus(reply.status));
      }
      var decoded := decode(bytesResp);
      if decoded.Err? {
        return Err(DecodeFailure(decoded.error));
      }
      return Ok(decoded.value);
    }
  }

  /** `create`: builds the transport from the outcome of parsing the host URL
      and returns a builder on `channel`; a transport error is passed on. */
  method Create(parsed: Result<Core.Url, string>, apikey: string, password: string, channel: Channel)
    returns (r: Result<Sms, SmsError>)
    ensures parsed.Err? ==> r == Err(CoreFailure(Core.InvalidUrl(parsed.error)))
    ensures parsed.Ok? ==> r.Ok? && fresh(r.value)
    ensures parsed.Ok? ==>
      && Core.StripsQueryAndFragment(parsed.value, r.value.core.url)
      && r.value.core.key == apikey && r.value.core.pass == password
      && r.value.moduleName == Core.ModuleSms && r.value.channel == channel
      && r.value.IsEmptyDraft()
  {
    var c := Core.New(parsed, apikey, password);
    if c.Err? {
      return Err(CoreFailure(c.error));
    }
    var s := new Sms(c.value, channel);
    return Ok(s);
  }

  method Default(parsed: Result<Core.Url, string>, apikey: string, password: string)
    returns (r: Result<Sms, SmsError>)
    ensures parsed.Err? ==> r == Err(CoreFailure(Core.InvalidUrl(parsed.error)))
    ensures parsed.Ok? ==> r.Ok? && fresh(r.value) && r.value.channel == ChannelDefault
    ensures parsed.Ok? ==> r.value.moduleName == Core.ModuleSms && r.value.IsEmptyDraft()
    ensures parsed.Ok? ==>
      && Core.StripsQueryAndFragment(parsed.value, r.value.core.url)
      && r.value.core.key == apikey && r.value.core.pass == password
  {
    r := Create(parsed, apikey, password, ChannelDefault);
  }

  method LongNumber(parsed: Result<Core.Url, string>, apikey: string, password: string)
    returns (r: Result<Sms, SmsError>)
    ensures parsed.Err? ==> r == Err(CoreFailure(Core.InvalidUrl(parsed.error)))
    ensures parsed.Ok? ==> r.Ok? && fresh(r.value) && r.value.channel == ChannelLongNumber
    ensures parsed.Ok? ==> r.value.moduleName == Core.ModuleSms && r.value.IsEmptyDraft()
    ensures parsed.Ok? ==>
      && Core.StripsQueryAndFragment(parsed.value, r.value.core.url)
      && r.value.core.key == apikey && r.value.core.pass == password
  {
    r := Create(parsed, apikey, password, ChannelLongNumber);
  }

  method OTP(parsed: Result<Core.Url, string>, apikey: string, password: string)
    returns (r: Result<Sms, SmsError>)
    ensures parsed.Err? ==> r == Err(CoreFailure(Core.InvalidUrl(parsed.error)))
    ensures parsed.Ok? ==> r.Ok? && fresh(r.value) && r.value.channel == ChannelOTP
    ensures parsed.Ok? ==> r.value.moduleName == Core.ModuleSms && r.value.IsEmptyDraft()
    ensures parsed.Ok? ==>
      && Core.StripsQueryAndFragment(parsed.value, r.value.core.url)
      && r.value.core.key == apikey && r.value.core.pass == password
  {
    r := Create(parsed, apikey, password, ChannelOTP);
  }

  method Regular(parsed: Result<Core.Url, string>, apikey: string, password: string)
    returns (r: Result<Sms, SmsError>)
    ensures parsed.Err? ==> r == Err(CoreFailure(Core.InvalidUrl(parsed.error)))
    ensures parsed.Ok? ==> r.Ok? && fresh(r.value) && r.value.channel == ChannelRegular
    ensures parsed.Ok? ==> r.value.moduleName == Core.ModuleSms && r.value.IsEmptyDraft()
    ensures parsed.Ok? ==>
      && Core.StripsQueryAndFragment(parsed.value, r.value.core.url)
      && r.value.core.key == apikey && r.value.core.pass == password
  {
    r := Create(parsed, apikey, password, ChannelRegular);
  }
}
