/** Timeshift reservations (timeshift_reservations.go): the reservation
    record and its watch URL, the scan that pulls the `data-props` payload
    out of the embedded-data `<script>` tag of the reservations page, and
    the checks the fetch runs, in order, on the response. */
module Timeshift {
  import opened Wrappers
  import opened Html

  // ---------------------------------------------------------------------
  // Reservation records

  /** An instant, with the UTC offset it was written with. How the decoder
      parses the `2006-01-02T15:04:05-0700` layout is not part of this model. */
  datatype Time = Time(unixSeconds: int, utcOffsetSeconds: int)

  datatype Schedule = Schedule(beginTime: Time, endTime: Time, openTime: Time, status: string)

  datatype Program = Program(title: string, schedule: Schedule)

  datatype SocialGroup = SocialGroup(name: string)

  datatype TimeshiftReservation = TimeshiftReservation(
    programID: string,
    program: Program,
    socialGroup: SocialGroup)

  const WatchURLPrefix: string := "https://live.nicovideo.jp/watch/"

  /** The watch page of the reserved program. */
  function URL(r: TimeshiftReservation): string
  {
    WatchURLPrefix + r.programID
  }

  /** The program identifier a watch URL names, if it is one. */
  function ProgramIDFromURL(u: string): Option<string>
  {
    if |WatchURLPrefix| <= |u| && u[..|WatchURLPrefix|] == WatchURLPrefix
    then Some(u[|WatchURLPrefix|..])
    else None
  }

  /** The URL is the fixed prefix followed by exactly the program identifier. */
  lemma URLRoundTrip(r: TimeshiftReservation)
    ensures ProgramIDFromURL(URL(r)) == Some(r.programID)
  {
  }

  /** Every watch URL is the URL of the reservations with that identifier. */
  lemma URLFromProgramID(u: string, r: TimeshiftReservation)
    requires ProgramIDFromURL(u) == Some(r.programID)
    ensures URL(r) == u
  {
  }

  /** Two reservations have the same URL exactly when they have the same
      program identifier. */
  lemma URLInjective(r1: TimeshiftReservation, r2: TimeshiftReservation)
    ensures URL(r1) == URL(r2) <==> r1.programID == r2.programID
  {
    if URL(r1) == URL(r2) {
      URLRoundTrip(r1);
      URLRoundTrip(r2);
    }
  }

  /** The example the URL accessor documents. */
  lemma URLExample(r: TimeshiftReservation)
    requires r.programID == "lv123456789"
    ensures URL(r) == "https://live.nicovideo.jp/watch/lv123456789"
  {
  }

  // ---------------------------------------------------------------------
  // Extraction of the embedded data

  const ScriptTag: string := "script"
  const IDKey: string := "id"
  const EmbeddedDataID: string := "embedded-data"
  const DataPropsKey: string := "data-props"

  /** The only way extraction fails: the stream ended before a qualifying tag. */
  datatype ExtractError = DataPropsNotFound

  predicate IsEmbeddedDataID(a: Attribute)
  {
    a.key == IDKey && a.val == EmbeddedDataID
  }

  /** Some attribute, in any position, is `id="embedded-data"`. */
  predicate HasEmbeddedDataID(attrs: seq<Attribute>)
  {
    exists k :: 0 <= k < |attrs| && IsEmbeddedDataID(attrs[k])
  }

  predicate HasDataProps(attrs: seq<Attribute>)
  {
    exists k :: 0 <= k < |attrs| && attrs[k].key == DataPropsKey
  }

  /** Position `k` holds the first `data-props` attribute of `attrs`. */
  predicate IsFirstDataPropsAt(attrs: seq<Attribute>, k: int)
  {
    && 0 <= k < |attrs|
    && attrs[k].key == DataPropsKey
    && forall j :: 0 <= j < k ==> attrs[j].key != DataPropsKey
  }

  /** The value of the first `data-props` attribute, if there is one. */
  function FirstDataProps(attrs: seq<Attribute>): (v: Option<string>)
    ensures v.None? <==> !HasDataProps(attrs)
    ensures forall k :: IsFirstDataPropsAt(attrs, k) ==> v == Some(attrs[k].val)
  {
    if |attrs| == 0 then None
    else if attrs[0].key == DataPropsKey then Some(attrs[0].val)
    else
      var v := FirstDataProps(attrs[1..]);
      assert forall k :: IsFirstDataPropsAt(attrs, k) ==> IsFirstDataPropsAt(attrs[1..], k - 1);
      assert HasDataProps(attrs) ==> HasDataProps(attrs[1..]) by {
        if HasDataProps(attrs) {
          var k :| 0 <= k < |attrs| && attrs[k].key == DataPropsKey;
          assert attrs[1..][k - 1].key == DataPropsKey;
        }
      }
      v
  }

  /** What one token yields on its own: the first `data-props` value of a
      `script` start tag that carries `id="embedded-data"`, and nothing for
      every other token (self-closing tags included). */
  function TagDataProps(t: Token): (v: Option<string>)
    ensures v.Some? <==>
      t.tokenType == StartTagToken && t.data == ScriptTag
      && HasEmbeddedDataID(t.attr) && HasDataProps(t.attr)
    ensures forall k :: IsFirstDataPropsAt(t.attr, k) && v.Some? ==> v.value == t.attr[k].val
  {
    if t.tokenType == StartTagToken && t.data == ScriptTag && HasEmbeddedDataID(t.attr)
    then FirstDataProps(t.attr)
    else None
  }

  /** A token at which the scan stops: the end of the stream or a tag that
      yields a value. */
  predicate Stops(t: Token)
  {
    t.tokenType == ErrorToken || TagDataProps(t).Some?
  }

  /** The result of scanning `tokens`, with `unescape` standing for the
      entity decoding applied to the value found. */
  function DataProps(tokens: seq<Token>, unescape: string -> string): Result<string, ExtractError>
  {
    if |tokens| == 0 || tokens[0].tokenType == ErrorToken then Failure(DataPropsNotFound)
    else match TagDataProps(tokens[0])
      case Some(v) => Success(unescape(v))
      case None => DataProps(tokens[1..], unescape)
  }

  /** The single-pass scan: pulls tokens until the end of the stream, and
      on a `script` start tag first looks for `id="embedded-data"` among
      all its attributes, then returns the unescaped first `data-props`. */
  method ExtractHTMLDataProps(tokens: seq<Token>, unescape: string -> string)
    returns (r: Result<string, ExtractError>)
    ensures r == DataProps(tokens, unescape)
  {
    var i := 0;
    while true
      invariant 0 <= i <= |tokens|
      invariant DataProps(tokens[i..], unescape) == DataProps(tokens, unescape)
      decreases |tokens| - i
    {
      var tt := Next(tokens, i);
      if tt == ErrorToken {
        return Failure(DataPropsNotFound);
      }
      var token := tokens[i];
      assert tokens[i..][1..] == tokens[i + 1..];
      i := i + 1;
      if tt == StartTagToken && token.data == ScriptTag {
        var hasID := false;
        for k := 0 to |token.attr|
          invariant hasID <==> exists j :: 0 <= j < k && IsEmbeddedDataID(token.attr[j])
        {
          if token.attr[k].key == IDKey && token.attr[k].val == EmbeddedDataID {
            hasID := true;
          }
        }
        if hasID {
          for k := 0 to |token.attr|
            invariant forall j :: 0 <= j < k ==> token.attr[j].key != DataPropsKey
          {
            if token.attr[k].key == DataPropsKey {
              assert IsFirstDataPropsAt(token.attr, k);
              return Success(unescape(token.attr[k].val));
            }
          }
        }
      }
    }
  }

  /** The scan succeeds exactly when some tag yields a value before the
      stream has ended; otherwise (an empty stream included) it reports
      that the data was not found. */
  lemma {:induction false} DataPropsFoundIff(tokens: seq<Token>, unescape: string -> string)
    ensures DataProps(tokens, unescape).Success? <==>
      exists i :: 0 <= i < |tokens| && TagDataProps(tokens[i]).Some?
        && forall j :: 0 <= j < i ==> tokens[j].tokenType != ErrorToken
  {
    if |tokens| == 0 || tokens[0].tokenType == ErrorToken {
      forall i | 0 <= i < |tokens| && TagDataProps(tokens[i]).Some?
        ensures exists j :: 0 <= j < i && tokens[j].tokenType == ErrorToken
      {
        assert i != 0;
        assert tokens[0].tokenType == ErrorToken;
      }
    } else if TagDataProps(tokens[0]).Some? {
      assert TagDataProps(tokens[0]).Some?;
    } else {
      var rest := tokens[1..];
      DataPropsFoundIff(rest, unescape);
      if DataProps(rest, unescape).Success? {
        var i :| 0 <= i < |rest| && TagDataProps(rest[i]).Some?
          && forall j :: 0 <= j < i ==> rest[j].tokenType != ErrorToken;
        assert tokens[i + 1] == rest[i];
        assert forall j :: 0 <= j < i + 1 ==> tokens[j].tokenType != ErrorToken by {
          forall j | 0 <= j < i + 1 ensures tokens[j].tokenType != ErrorToken {
            if j > 0 { assert tokens[j] == rest[j - 1]; }
          }
        }
      } else {
        forall i | 0 <= i < |tokens| && TagDataProps(tokens[i]).Some?
          ensures exists j :: 0 <= j < i && tokens[j].tokenType == ErrorToken
        {
          assert i > 0 && rest[i - 1] == tokens[i];
          var j :| 0 <= j < i - 1 && rest[j].tokenType == ErrorToken;
          assert tokens[j + 1] == rest[j];
        }
      }
    }
  }

  /** The earliest tag that yields a value decides the result: the result
      is the unescaped first `data-props` value of that tag. */
  lemma {:induction false} EarliestQualifyingTagWins(tokens: seq<Token>, unescape: string -> string, i: int)
    requires 0 <= i < |tokens| && TagDataProps(tokens[i]).Some?
    requires forall j :: 0 <= j < i ==> !Stops(tokens[j])
    ensures DataProps(tokens, unescape) == Success(unescape(FirstDataProps(tokens[i].attr).value))
  {
    if i > 0 {
      assert !Stops(tokens[0]);
      var rest := tokens[1..];
      assert rest[i - 1] == tokens[i];
      assert forall j :: 0 <= j < i - 1 ==> rest[j] == tokens[j + 1];
      EarliestQualifyingTagWins(rest, unescape, i - 1);
    }
  }

  /** A token that neither ends the stream nor yields a value (a text,
      comment or end-tag token, a start tag that is not `script`, a
      self-closing tag, a `script` tag without the id or without
      `data-props`) can be removed without changing the result. */
  lemma {:induction false} SkippedTokenIrrelevant(pre: seq<Token>, t: Token, post: seq<Token>, unescape: string -> string)
    requires !Stops(t)
    ensures DataProps(pre + [t] + post, unescape) == DataProps(pre + post, unescape)
    decreases |pre|
  {
    if |pre| == 0 {
      assert pre + [t] + post == [t] + post;
      assert ([t] + post)[1..] == post;
      assert pre + post == post;
    } else {
      assert (pre + [t] + post)[0] == pre[0] && (pre + post)[0] == pre[0];
      assert (pre + [t] + post)[1..] == pre[1..] + [t] + post;
      assert (pre + post)[1..] == pre[1..] + post;
      SkippedTokenIrrelevant(pre[1..], t, post, unescape);
    }
  }

  /** Tokens other than start tags (except the end of the stream), and start
      tags not named `script`, never affect the result. */
  lemma NonScriptTokenIrrelevant(pre: seq<Token>, t: Token, post: seq<Token>, unescape: string -> string)
    requires t.tokenType != ErrorToken
    requires t.tokenType != StartTagToken || t.data != ScriptTag
    ensures DataProps(pre + [t] + post, unescape) == DataProps(pre + post, unescape)
  {
    SkippedTokenIrrelevant(pre, t, post, unescape);
  }

  /** A `script` tag that carries `id="embedded-data"` but no `data-props`
      does not end the scan: the result is that of the tokens after it. */
  lemma EmbeddedTagWithoutDataPropsFallsThrough(t: Token, rest: seq<Token>, unescape: string -> string)
    requires t.tokenType == StartTagToken && t.data == ScriptTag && HasEmbeddedDataID(t.attr)
    requires forall k :: 0 <= k < |t.attr| ==> t.attr[k].key != DataPropsKey
    ensures DataProps([t] + rest, unescape) == DataProps(rest, unescape)
  {
  }

  /** Once the scan has reached a token that stops it, nothing after that
      token is inspected. */
  lemma {:induction false} LaterTokensIgnored(scanned: seq<Token>, rest: seq<Token>, unescape: string -> string)
    requires |scanned| > 0 && Stops(scanned[|scanned| - 1])
    ensures DataProps(scanned + rest, unescape) == DataProps(scanned, unescape)
    decreases |scanned|
  {
    var s := scanned + rest;
    assert s[0] == scanned[0];
    if |scanned| > 1 && !Stops(scanned[0]) {
      assert s[1..] == scanned[1..] + rest;
      LaterTokensIgnored(scanned[1..], rest, unescape);
    }
  }

  /** A token stream whose first value-yielding tag is a `script` start
      tag carrying `id="embedded-data"` and, as tokenized, the value
      `escape(payload)` gives back the payload, whenever `unescape` undoes
      `escape` on that payload. */
  lemma EmbeddedDataRoundTrip(pre: seq<Token>, post: seq<Token>, payload: string,
                              escape: string -> string, unescape: string -> string)
    requires forall j :: 0 <= j < |pre| ==> !Stops(pre[j])
    requires unescape(escape(payload)) == payload
    ensures DataProps(pre + [EmbeddedDataTag(escape(payload))] + post, unescape) == Success(payload)
  {
    var t := EmbeddedDataTag(escape(payload));
    assert IsEmbeddedDataID(t.attr[0]);
    assert IsFirstDataPropsAt(t.attr, 1);
    var page := pre + [t] + post;
    assert page[|pre|] == t;
    assert forall j :: 0 <= j < |pre| ==> page[j] == pre[j];
    EarliestQualifyingTagWins(page, unescape, |pre|);
  }

  /** `<script id="embedded-data" data-props="...">`. */
  function EmbeddedDataTag(escaped: string): Token
  {
    Token(StartTagToken, ScriptTag, [Attribute("", IDKey, EmbeddedDataID), Attribute("", DataPropsKey, escaped)])
  }

  // ---------------------------------------------------------------------
  // Fetching the reservations

  const StatusOK: int := 200

  /** A response: its status code and its body as a token stream. */
  datatype Response = Response(statusCode: int, body: seq<Token>)

  /** Each stage of the fetch that can fail, with what it carries. */
  datatype Error =
    | DoRequest(cause: string)
    | UnexpectedStatus(code: int)
    | ExtractDataProps(reason: ExtractError)
    | UnmarshalDataProps(cause: string)

  /** The checks run on the outcome of the request, in order: a transport
      error, then the status code, then extraction of the payload, then
      decoding it (`unmarshal` stands for the JSON decoder followed by the
      projection onto the nested reservation list). */
  method TimeshiftReservations(
    exchange: Result<Response, string>,
    unescape: string -> string,
    unmarshal: string -> Result<seq<TimeshiftReservation>, string>)
    returns (r: Result<seq<TimeshiftReservation>, Error>)
    ensures exchange.Failure? ==> r == Failure(DoRequest(exchange.error))
    ensures exchange.Success? && exchange.value.statusCode != StatusOK ==>
      r == Failure(UnexpectedStatus(exchange.value.statusCode))
    ensures exchange.Success? && exchange.value.statusCode == StatusOK ==>
      match DataProps(exchange.value.body, unescape)
      case Failure(e) => r == Failure(ExtractDataProps(e))
      case Success(s) =>
        match unmarshal(s)
        case Failure(e) => r == Failure(UnmarshalDataProps(e))
        case Success(rs) => r == Success(rs)
  {
    if exchange.Failure? {
      return Failure(DoRequest(exchange.error));
    }
    var resp := exchange.value;
    if resp.statusCode != StatusOK {
      return Failure(UnexpectedStatus(resp.statusCode));
    }
    var dataProps := ExtractHTMLDataProps(resp.body, unescape);
    if dataProps.Failure? {
      return Failure(ExtractDataProps(dataProps.error));
    }
    var props := unmarshal(dataProps.value);
    if props.Failure? {
      return Failure(UnmarshalDataProps(props.error));
    }
    return Success(props.value);
  }
}
