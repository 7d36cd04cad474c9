/**
 Notifiers: the Telegram transport (constructor validation, token
 substitution into the endpoint template, and a `notify` that swallows
 request failures), and the loop that sends one message to a list of
 notifiers in order. The HTTP call itself is a parameter: the model
 records the request that is issued and takes what `requests.post` did as
 input.
 */
module Notifiers {
  import opened Base

  const Placeholder := "<your_bot_token>"
  const DefaultApiUrl := "https://api.telegram.org/bot<your_bot_token>/sendMessage"
  const ConfigErrorText := "Telegram API URL, bot token, and chat ID must be provided."

  /** A constructed `TelegramNotifier`: the endpoint with the token already substituted, and the chat id. */
  datatype TelegramNotifier = TelegramNotifier(apiUrl: string, chatId: string)

  /** Any object with a `notify(message)` method: the Telegram one, or another identified by `id`. */
  datatype Notifier = Telegram(telegram: TelegramNotifier) | Custom(id: nat)

  /** `pat` occurs in `s` at position `i`. */
  predicate OccursAt(s: string, pat: string, i: nat) {
    i + |pat| <= |s| && s[i..i + |pat|] == pat
  }

  /**
   Python's `s.replace(pat, rep)`: scans left to right and replaces every
   non-overlapping occurrence of `pat`; the inserted text is not rescanned.
   */
  function ReplaceAll(s: string, pat: string, rep: string): (r: string)
    requires |pat| > 0
    ensures (forall i :: 0 <= i < |s| ==> s[i] != pat[0]) ==> r == s
    ensures |rep| == |pat| ==> |r| == |s|
    ensures forall c :: c in r ==> c in s || c in rep
    decreases |s|
  {
    if |s| < |pat| then s
    else if s[..|pat|] == pat then rep + ReplaceAll(s[|pat|..], pat, rep)
    else [s[0]] + ReplaceAll(s[1..], pat, rep)
  }

  /** A string with no occurrence of the pattern comes back unchanged. */
  lemma {:induction false} ReplaceAbsent(s: string, pat: string, rep: string)
    requires |pat| > 0
    requires forall i: nat :: !OccursAt(s, pat, i)
    ensures ReplaceAll(s, pat, rep) == s
    decreases |s|
  {
    if |s| >= |pat| {
      assert !OccursAt(s, pat, 0);
      forall i: nat
        ensures !OccursAt(s[1..], pat, i)
      {
        assert !OccursAt(s, pat, i + 1);
        if i + |pat| <= |s[1..]| {
          assert s[1..][i..i + |pat|] == s[i + 1..i + 1 + |pat|];
        }
      }
      ReplaceAbsent(s[1..], pat, rep);
    }
  }

  /** A first character that cannot start the pattern is copied and scanning moves on by one. */
  lemma ReplaceNoMatchHead(s: string, pat: string, rep: string)
    requires |pat| > 0 && |s| > 0 && s[0] != pat[0]
    ensures ReplaceAll(s, pat, rep) == [s[0]] + ReplaceAll(s[1..], pat, rep)
  {
  }

  /** Text holding no first character of the pattern is copied through unchanged. */
  lemma {:induction false} ReplaceSkipsHead(a: string, t: string, pat: string, rep: string)
    requires |pat| > 0
    requires forall i :: 0 <= i < |a| ==> a[i] != pat[0]
    ensures ReplaceAll(a + t, pat, rep) == a + ReplaceAll(t, pat, rep)
    decreases |a|
  {
    if |a| > 0 {
      var s := a + t;
      assert s[0] == a[0];
      ReplaceNoMatchHead(s, pat, rep);
      assert s[1..] == a[1..] + t;
      ReplaceSkipsHead(a[1..], t, pat, rep);
      assert a == [a[0]] + a[1..];
    } else {
      assert a + t == t;
    }
  }

  /** An occurrence at the head is replaced and scanning resumes after it. */
  lemma ReplaceAtHead(t: string, pat: string, rep: string)
    requires |pat| > 0
    ensures ReplaceAll(pat + t, pat, rep) == rep + ReplaceAll(t, pat, rep)
  {
  }

  /** Dropping the first character moves every occurrence one place to the left. */
  lemma OccursShift(s: string, pat: string, i: nat)
    requires |s| > 0
    ensures OccursAt(s[1..], pat, i) <==> OccursAt(s, pat, i + 1)
  {
    if i + |pat| <= |s[1..]| {
      assert s[1..][i..i + |pat|] == s[i + 1..i + 1 + |pat|];
    }
  }

  /** A first character at which no occurrence starts is copied and scanning moves on by one. */
  lemma ReplaceNoOccurrenceHead(s: string, pat: string, rep: string)
    requires |pat| > 0 && |s| > 0 && !OccursAt(s, pat, 0)
    ensures ReplaceAll(s, pat, rep) == [s[0]] + ReplaceAll(s[1..], pat, rep)
  {
    if |s| < |pat| {
      assert ReplaceAll(s[1..], pat, rep) == s[1..];
      assert s == [s[0]] + s[1..];
    }
  }

  /** A head in which no occurrence of the pattern starts is copied through unchanged. */
  lemma {:induction false} ReplaceSkipsNoOccurrence(a: string, t: string, pat: string, rep: string)
    requires |pat| > 0
    requires forall i :: 0 <= i < |a| ==> !OccursAt(a + t, pat, i)
    ensures ReplaceAll(a + t, pat, rep) == a + ReplaceAll(t, pat, rep)
    decreases |a|
  {
    if |a| > 0 {
      var s := a + t;
      assert s[0] == a[0];
      ReplaceNoOccurrenceHead(s, pat, rep);
      assert s[1..] == a[1..] + t;
      forall i | 0 <= i < |a[1..]| ensures !OccursAt(a[1..] + t, pat, i) {
        OccursShift(s, pat, i);
      }
      ReplaceSkipsNoOccurrence(a[1..], t, pat, rep);
      assert a == [a[0]] + a[1..];
    } else {
      assert a + t == t;
    }
  }

  /** Text that cannot start the pattern holds no occurrence start, whatever follows it. */
  lemma NoHeadNoOccurrence(a: string, t: string, pat: string)
    requires |pat| > 0
    requires forall i :: 0 <= i < |a| ==> a[i] != pat[0]
    ensures forall i :: 0 <= i < |a| ==> !OccursAt(a + t, pat, i)
  {
    forall i | 0 <= i < |a| ensures !OccursAt(a + t, pat, i) {
      assert (a + t)[i] == a[i];
    }
  }

  /**
   An occurrence preceded by text in which no occurrence starts is replaced,
   and scanning carries on over the rest: applied repeatedly, every
   occurrence is replaced, not only the first.
   */
  lemma ReplaceOccurrence(a: string, b: string, pat: string, rep: string)
    requires |pat| > 0
    requires forall i :: 0 <= i < |a| ==> !OccursAt(a + (pat + b), pat, i)
    ensures ReplaceAll(a + (pat + b), pat, rep) == a + (rep + ReplaceAll(b, pat, rep))
  {
    ReplaceSkipsNoOccurrence(a, pat + b, pat, rep);
    ReplaceAtHead(b, pat, rep);
  }

  /** Two occurrences, each preceded by text that cannot start the pattern, are both replaced. */
  lemma ReplaceTwoOccurrences(head: string, mid: string, tail: string, pat: string, rep: string)
    requires |pat| > 0
    requires forall i :: 0 <= i < |head| ==> head[i] != pat[0]
    requires forall i :: 0 <= i < |mid| ==> mid[i] != pat[0]
    requires forall i :: 0 <= i < |tail| ==> tail[i] != pat[0]
    ensures ReplaceAll(head + (pat + (mid + (pat + tail))), pat, rep) == head + (rep + (mid + (rep + tail)))
  {
    NoHeadNoOccurrence(head, pat + (mid + (pat + tail)), pat);
    ReplaceOccurrence(head, mid + (pat + tail), pat, rep);
    NoHeadNoOccurrence(mid, pat + tail, pat);
    ReplaceOccurrence(mid, tail, pat, rep);
    assert ReplaceAll(tail, pat, rep) == tail;
  }

  /**
   `TelegramNotifier(bot_token, chat_id, api_url)`: `ValueError` when any
   argument is empty; otherwise the token is substituted into the endpoint
   and the chat id is kept as given.
   */
  function NewTelegram(botToken: string, chatId: string, apiUrl: string): (r: Result<TelegramNotifier>)
    ensures r.Err? <==> botToken == [] || chatId == [] || apiUrl == []
    ensures r.Err? ==> r.error == Exc("ValueError", ConfigErrorText)
    ensures r.Ok? ==> r.value.chatId == chatId
    ensures r.Ok? ==> r.value.apiUrl == ReplaceAll(apiUrl, Placeholder, botToken)
  {
    if botToken == [] || chatId == [] || apiUrl == [] then
      Err(Exc("ValueError", ConfigErrorText))
    else
      Ok(TelegramNotifier(ReplaceAll(apiUrl, Placeholder, botToken), chatId))
  }

  /** An endpoint without the placeholder is stored exactly as given, whatever the token. */
  lemma EndpointWithoutPlaceholder(botToken: string, chatId: string, apiUrl: string)
    requires botToken != [] && chatId != [] && apiUrl != []
    requires forall i: nat :: !OccursAt(apiUrl, Placeholder, i)
    ensures NewTelegram(botToken, chatId, apiUrl) == Ok(TelegramNotifier(apiUrl, chatId))
  {
    ReplaceAbsent(apiUrl, Placeholder, botToken);
  }

  /** A template with one placeholder, and no other `<`, gets the token in its place. */
  lemma TemplateEndpoint(head: string, tail: string, botToken: string)
    requires forall i :: 0 <= i < |head| ==> head[i] != '<'
    requires forall i :: 0 <= i < |tail| ==> tail[i] != '<'
    ensures ReplaceAll(head + Placeholder + tail, Placeholder, botToken) == head + botToken + tail
  {
    assert head + Placeholder + tail == head + (Placeholder + tail);
    ReplaceSkipsHead(head, Placeholder + tail, Placeholder, botToken);
    ReplaceAtHead(tail, Placeholder, botToken);
    ReplaceSkipsHead(tail, [], Placeholder, botToken);
    assert tail + [] == tail;
  }

  /** A template naming the placeholder twice gets the token at both places. */
  lemma TwoPlaceholderEndpoint(head: string, mid: string, tail: string, botToken: string)
    requires forall i :: 0 <= i < |head| ==> head[i] != '<'
    requires forall i :: 0 <= i < |mid| ==> mid[i] != '<'
    requires forall i :: 0 <= i < |tail| ==> tail[i] != '<'
    ensures ReplaceAll(head + (Placeholder + (mid + (Placeholder + tail))), Placeholder, botToken)
         == head + (botToken + (mid + (botToken + tail)))
  {
    assert Placeholder[0] == '<';
    ReplaceTwoOccurrences(head, mid, tail, Placeholder, botToken);
  }

  /** With the default template the endpoint is the Bot API `sendMessage` method of the given token. */
  lemma DefaultEndpoint(botToken: string, chatId: string)
    requires botToken != [] && chatId != []
    ensures NewTelegram(botToken, chatId, DefaultApiUrl)
         == Ok(TelegramNotifier("https://api.telegram.org/bot" + botToken + "/sendMessage", chatId))
  {
    var head, tail := "https://api.telegram.org/bot", "/sendMessage";
    assert DefaultApiUrl == head + Placeholder + tail;
    TemplateEndpoint(head, tail, botToken);
  }

  /** The one request `notify` sends: a POST of the form fields `chat_id` and `text`. */
  datatype Post = Post(url: string, chatId: string, text: string)

  /**
   What `requests.post(...)` followed by `raise_for_status()` did: a response
   with some status, a `RequestException` (connection error, timeout, or the
   `HTTPError` that `raise_for_status` raises for a 4xx or 5xx status), or
   any other exception.
   */
  datatype PostOutcome = Response(status: int) | RequestError(error: Exc) | OtherError(error: Exc)

  datatype NotifyResult = NotifyResult(post: Post, outcome: Outcome)

  /**
   `TelegramNotifier.notify(message)`: exactly one POST to the stored
   endpoint carrying the stored chat id and the message; it raises only
   when the post raised something that is not a `RequestException`.
   */
  function Notify(t: TelegramNotifier, message: string, p: PostOutcome): (r: NotifyResult)
    ensures r.post.url == t.apiUrl && r.post.chatId == t.chatId && r.post.text == message
    ensures r.outcome.Returns? <==> !p.OtherError?
    ensures p.OtherError? ==> r.outcome == Raises(p.error)
  {
    var post := Post(t.apiUrl, t.chatId, message);
    match p
    case Response(_) => NotifyResult(post, Returns)
    case RequestError(_) => NotifyResult(post, Returns)
    case OtherError(e) => NotifyResult(post, Raises(e))
  }

  /** One `notify(message)` call made by a loop over notifiers: its position and its receiver. */
  datatype NotifyCall = NotifyCall(index: nat, notifier: Notifier, message: string)

  datatype FanoutResult = FanoutResult(calls: seq<NotifyCall>, outcome: Outcome)

  /**
   The loop `for notifier in notifiers: notifier.notify(message)`, given
   what each call does (`outs[k]` for the `k`-th notifier). Nothing
   catches inside the loop, so the first raising notifier ends it.
   */
  function Fanout(notifiers: seq<Notifier>, message: string, outs: seq<Outcome>): (r: FanoutResult)
    requires |outs| == |notifiers|
    ensures |r.calls| <= |notifiers|
    ensures forall k :: 0 <= k < |r.calls| ==> r.calls[k] == NotifyCall(k, notifiers[k], message)
    ensures r.outcome.Returns? <==> forall k :: 0 <= k < |outs| ==> outs[k].Returns?
    ensures r.outcome.Returns? ==> |r.calls| == |notifiers|
    ensures r.outcome.Raises? ==> 0 < |r.calls| && r.outcome == outs[|r.calls| - 1]
    ensures forall k :: 0 <= k < |r.calls| - 1 ==> outs[k].Returns?
  {
    var c := CallsMade(outs);
    FanoutResult(seq(c, k requires 0 <= k < c => NotifyCall(k, notifiers[k], message)), Propagated(outs))
  }

  /** The same loop, one `notify` at a time. */
  method NotifyEach(notifiers: seq<Notifier>, message: string, outs: seq<Outcome>)
    returns (calls: seq<NotifyCall>, outcome: Outcome)
    requires |outs| == |notifiers|
    ensures FanoutResult(calls, outcome) == Fanout(notifiers, message, outs)
  {
    calls := [];
    outcome := Returns;
    var k := 0;
    while k < |notifiers| && outcome.Returns?
      invariant 0 <= k <= |notifiers|
      invariant |calls| == k
      invariant forall t :: 0 <= t < k ==> calls[t] == NotifyCall(t, notifiers[t], message)
      invariant outcome.Returns? ==> forall t :: 0 <= t < k ==> outs[t].Returns?
      invariant outcome.Raises? ==> 0 < k && FirstRaise(outs) == k - 1 && outcome == outs[k - 1]
    {
      calls := calls + [NotifyCall(k, notifiers[k], message)];
      outcome := outs[k];
      k := k + 1;
    }
    assert outcome.Returns? ==> k == |notifiers| && FirstRaise(outs) == |outs|;
  }

  /**
   The response status never matters: any status, and any request-level
   failure, leaves `notify` returning normally after the same request.
   */
  lemma NotifyIgnoresStatus(t: TelegramNotifier, message: string, s1: int, s2: int, e: Exc)
    ensures Notify(t, message, Response(s1)) == Notify(t, message, Response(s2))
    ensures Notify(t, message, RequestError(e)) == Notify(t, message, Response(s1))
    ensures Notify(t, message, Response(s1)).outcome == Returns
  {
  }
}
