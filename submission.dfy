/** The entries step. On mount the page sends a visitor without stored
    contact details back to `/info`, and restores a saved draft of the five
    entries. Every change of the entries (re)arms a one-second timer that
    saves them as the draft; a newer change or leaving the page cancels the
    pending save. On submit it requires a non-blank first entry, reads and
    parses the stored contact details, and posts the formatted message to
    the webhook up to three times, waiting 2 s and then 4 s between
    attempts. On success it clears both stored keys and moves to
    `/thank-you`; otherwise it shows one failure toast and keeps the store.

    The webhook URL (a build-time setting) and the outcome of each post are
    parameters: `responses[i]` says whether post number i succeeds (a
    network error and a non-ok status are the same failure here). */
module Submission {
  import opened Base
  import opened Text
  import opened Records
  import opened Storage
  import opened DiscordMessage
  import Retry

  const MaxRetries := 3

  // ----- Navigation guard -----

  /** `!value` for a string that may be missing: absent (or unreadable)
      and the empty string are both falsy. It is the test on the stored
      details, on the saved draft and on the webhook URL. */
  predicate Present(v: Option<string>)
    ensures v == None ==> !Present(v)
    ensures v == Some("") ==> !Present(v)
  {
    v.Some? && v.value != ""
  }

  /** What the guard shows on mount: nothing when contact details are
      stored, otherwise a toast and a redirect to the first step. */
  function GuardEffects(st: StoreState): (r: seq<Effect>)
    ensures r == [] <==> Present(Get(st, UserInfoKey))
    ensures r != [] ==> r == [Toast(SessionRequired), Navigate(InfoRoute)]
  {
    if Present(Get(st, UserInfoKey)) then []
    else [Toast(SessionRequired), Navigate(InfoRoute)]
  }

  /** After the first step has stored a form in a healthy store, the guard
      lets the visitor through: the stored JSON text is never empty. */
  lemma GuardPassesAfterFirstStep(st: StoreState, c: ContactInfo)
    requires !st.failing
    ensures GuardEffects(Set(st, UserInfoKey, EncodeContact(c))) == []
  {
    var s := EncodeContact(c);
    assert s[0] == '{';
  }

  // ----- Draft load -----

  /** The entries after the mount-time draft load: a stored, non-empty draft
      that parses replaces the entries wholesale; anything else leaves them
      as they are. */
  function LoadedEntries(current: Entries, saved: Option<string>): (r: Entries)
    ensures !Present(saved) ==> r == current
    ensures Present(saved) && DecodeEntries(saved.value).None? ==> r == current
    ensures Present(saved) && DecodeEntries(saved.value).Some? ==> r == DecodeEntries(saved.value).value
  {
    if Present(saved) then
      match DecodeEntries(saved.value)
      case Some(e) => e
      case None => current
    else current
  }

  /** A draft saved in a healthy store is restored exactly on the next
      mount, whatever the entries were before. */
  lemma DraftRestoresSavedEntries(st: StoreState, saved: Entries, current: Entries)
    requires !st.failing
    ensures LoadedEntries(current, Get(Set(st, DraftKey, EncodeEntries(saved)), DraftKey)) == saved
  {
    EntriesRoundTrip(saved);
    assert EncodeEntries(saved)[0] == '{';
  }

  // ----- Debounced autosave -----

  /** The entries and the save the pending timer would make, if one is
      pending. */
  datatype Autosave = Autosave(entries: Entries, pending: Option<Entries>)

  /** What can happen to the page between renders: an edit of one entry,
      the timer firing one second after the last (re)arm, or leaving the
      page. */
  datatype AutosaveEvent = Edit(field: EntryField, value: string) | Elapsed | Leave

  /** One event: an edit updates the entries and re-arms the timer with
      them (the cleanup cancels the previous one); the timer firing saves
      what it captured and disarms; leaving disarms without saving. The
      second component is the draft written, if any. */
  function Step(a: Autosave, ev: AutosaveEvent): (r: (Autosave, Option<Entries>))
    ensures r.1.Some? ==> ev.Elapsed? && r.1 == a.pending
    ensures !ev.Edit? ==> r.0.pending == None
  {
    match ev
    case Edit(f, v) =>
      var e := a.entries.Update(f, v);
      (Autosave(e, Some(e)), None)
    case Elapsed => (Autosave(a.entries, None), a.pending)
    case Leave => (Autosave(a.entries, None), None)
  }

  /** The drafts written over a sequence of events, in order. */
  function Replay(a: Autosave, events: seq<AutosaveEvent>): (r: (Autosave, seq<Entries>))
    ensures |r.1| <= |events|
    decreases |events|
  {
    if events == [] then (a, [])
    else
      var step := Step(a, events[0]);
      var rest := Replay(step.0, events[1..]);
      (rest.0, (if step.1.Some? then [step.1.value] else []) + rest.1)
  }

  /** A pending save always holds the current entries. */
  predicate Coherent(a: Autosave)
  {
    a.pending == None || a.pending == Some(a.entries)
  }

  /** Every event keeps the timer coherent, and a save writes the entries as
      they are at that moment, never a stale copy. */
  lemma StepKeepsCoherent(a: Autosave, ev: AutosaveEvent)
    requires Coherent(a)
    ensures Coherent(Step(a, ev).0)
    ensures Step(a, ev).1.Some? ==> Step(a, ev).1.value == a.entries
  {
  }

  /** The timer firing on its own writes what it holds and disarms. */
  lemma ReplayElapsed(a: Autosave)
    ensures Replay(a, [Elapsed]).0 == Autosave(a.entries, None)
    ensures Replay(a, [Elapsed]).1 == if a.pending.Some? then [a.pending.value] else []
  {
    var ev: seq<AutosaveEvent> := [Elapsed];
    assert ev[1..] == [];
    var rest := Replay(Step(a, ev[0]).0, ev[1..]);
    assert rest.1 == [];
  }

  /** Edits only re-arm: however many come in a burst, nothing is written
      until the timer fires, and then only the entries after the last edit,
      once. */
  lemma {:induction false} BurstSavedOnce(a: Autosave, edits: seq<AutosaveEvent>)
    requires forall i :: 0 <= i < |edits| ==> edits[i].Edit?
    requires Coherent(a)
    requires edits != [] || a.pending.Some?
    decreases |edits|
    ensures Replay(a, edits).1 == []
    ensures Replay(a, edits).0.pending == Some(Replay(a, edits).0.entries)
    ensures Replay(a, edits + [Elapsed]).1 == [Replay(a, edits).0.entries]
  {
    if edits == [] {
      assert edits + [Elapsed] == [Elapsed];
      ReplayElapsed(a);
    } else {
      var a1 := Step(a, edits[0]).0;
      assert Step(a, edits[0]).1 == None;
      assert edits[1..] + [Elapsed] == (edits + [Elapsed])[1..];
      if edits[1..] == [] {
        ReplayElapsed(a1);
      } else {
        BurstSavedOnce(a1, edits[1..]);
      }
    }
  }

  /** Leaving the page cancels a pending save: a timer that would have
      fired afterwards writes nothing. */
  lemma LeaveCancelsPendingSave(a: Autosave)
    ensures Replay(a, [Leave, Elapsed]).1 == []
  {
    var ev: seq<AutosaveEvent> := [Leave, Elapsed];
    assert ev[1..] == [Elapsed];
    ReplayElapsed(Step(a, Leave).0);
  }

  // ----- Submit -----

    /** The zero-based index of the first successful post among the first
      `n`, or `n` when all of them fail. */
  function FirstAccepted(responses: seq<bool>, n: nat): (k: nat)
    requires n <= |responses|
    ensures k <= n
    ensures forall i :: 0 <= i < k ==> !responses[i]
    ensures k < n ==> responses[k]
  {
    FirstIndex(responses[..n])
  }

  /** The attempt that succeeds, or `MaxRetries` when none does. An
      unconfigured webhook throws inside the loop, so every attempt fails
      without posting. */
  function SucceedingAttempt(url: Option<string>, responses: seq<bool>): (k: nat)
    requires |responses| >= MaxRetries
    ensures k <= MaxRetries
  {
    if Present(url) then FirstAccepted(responses, MaxRetries) else MaxRetries
  }

  /** The failure toast, with the attempt count the loop ends on. */
  const Failed := Toast(SubmissionFailed(MaxRetries))

  /** What a submit shows, what it posts and the waits it takes. */
  datatype SubmitRun = SubmitRun(effects: seq<Effect>, posts: seq<string>, delays: seq<int>)

  /** The retry loop of `handleSubmit` once the contact details have been
      read: `msg` is the message every attempt posts. */
  function Attempts(msg: string, st: StoreState, url: Option<string>, responses: seq<bool>)
    : (r: (SubmitRun, StoreState))
    requires |responses| >= MaxRetries
    ensures |r.0.effects| == 1
    ensures |r.0.posts| <= MaxRetries && |r.0.delays| < MaxRetries
  {
    var k := SucceedingAttempt(url, responses);
    if k < MaxRetries then
      (SubmitRun([Navigate(ThankYouRoute)], Repeat(msg, k + 1), Retry.Backoff(2000, k)),
       Remove(Remove(st, UserInfoKey), DraftKey))
    else
      (SubmitRun([Failed], if Present(url) then Repeat(msg, MaxRetries) else [],
                 Retry.Backoff(2000, MaxRetries - 1)),
       st)
  }

  /** `Attempts`, case by case on the attempt that succeeds. */
  lemma AttemptsOutcome(msg: string, st: StoreState, url: Option<string>, responses: seq<bool>)
    requires |responses| >= MaxRetries
    ensures var k := SucceedingAttempt(url, responses);
            k < MaxRetries ==>
              Attempts(msg, st, url, responses).0 == SubmitRun([Navigate(ThankYouRoute)], Repeat(msg, k + 1), Retry.Backoff(2000, k))
    ensures var k := SucceedingAttempt(url, responses);
            k < MaxRetries ==> Attempts(msg, st, url, responses).1 == Remove(Remove(st, UserInfoKey), DraftKey)
    ensures SucceedingAttempt(url, responses) == MaxRetries ==>
              Attempts(msg, st, url, responses)
                == (SubmitRun([Failed], if Present(url) then Repeat(msg, MaxRetries) else [],
                              Retry.Backoff(2000, MaxRetries - 1)), st)
  {
  }

  /** The outcome of `handleSubmit` on entries `e` and store `st`, with the
      store afterwards. */
  function SubmitSpec(e: Entries, st: StoreState, url: Option<string>, responses: seq<bool>)
    : (r: (SubmitRun, StoreState))
    requires |responses| >= MaxRetries
    ensures r.0.effects != []
    ensures r.0.posts != [] ==> !IsBlank(e.entry1) && Present(Get(st, UserInfoKey))
  {
    if IsBlank(e.entry1) then
      (SubmitRun([Toast(EntryMissing)], [], []), st)
    else
      var stored := Get(st, UserInfoKey);
      if !Present(stored) then
        (SubmitRun([Toast(SessionExpired), Navigate(InfoRoute)], [], []), st)
      else
        match DecodeContact(stored.value)
        case None =>
          (SubmitRun([Toast(SessionError), Navigate(InfoRoute)], [], []), st)
        case Some(u) => Attempts(FormatDiscordMessage(u, e), st, url, responses)
  }

  /** The loop changes the store only on success, and then exactly by
      forgetting the contact details and the draft; a run ends in the
      thank-you page or in the failure toast. */
  lemma AttemptsClearOnlyOnSuccess(msg: string, st: StoreState, url: Option<string>, responses: seq<bool>)
    requires |responses| >= MaxRetries
    ensures var (run, st') := Attempts(msg, st, url, responses);
            && (run.effects == [Navigate(ThankYouRoute)] || run.effects == [Failed])
            && (run.effects == [Navigate(ThankYouRoute)] ==>
                  Get(st', UserInfoKey) == None && Get(st', DraftKey) == None
                  && forall key :: key != UserInfoKey && key != DraftKey ==> Get(st', key) == Get(st, key))
            && (run.effects != [Navigate(ThankYouRoute)] ==> st' == st)
  {
  }

  /** Every post of the loop is `msg`, and there are posts only with a
      configured webhook. */
  lemma AttemptsPostTheMessage(msg: string, st: StoreState, url: Option<string>, responses: seq<bool>)
    requires |responses| >= MaxRetries
    ensures var run := Attempts(msg, st, url, responses).0;
            && (run.posts != [] ==> Present(url))
            && forall i :: 0 <= i < |run.posts| ==> run.posts[i] == msg
  {
  }

  /** At most three posts and two waits, 2 s then 4 s; on success one post
      more than waits, the last post being the one that succeeded and every
      earlier one having failed. */
  lemma RetryBudget(msg: string, st: StoreState, url: Option<string>, responses: seq<bool>)
    requires |responses| >= MaxRetries
    ensures var run := Attempts(msg, st, url, responses).0;
            && |run.posts| <= MaxRetries
            && |run.delays| <= MaxRetries - 1
            && run.delays == [2000, 4000][..|run.delays|]
            && (run.effects == [Navigate(ThankYouRoute)] ==>
                  |run.posts| == |run.delays| + 1 && responses[|run.delays|]
                  && forall i :: 0 <= i < |run.delays| ==> !responses[i])
  {
    var k := SucceedingAttempt(url, responses);
    var run := Attempts(msg, st, url, responses).0;
    assert Pow2(1) == 2;
    var m := if k < MaxRetries then k else MaxRetries - 1;
    assert run.delays == Retry.Backoff(2000, m);
    BackoffPrefix(m);
    if k < MaxRetries {
      assert run.posts == Repeat(msg, k + 1);
      assert Present(url);
    }
  }

  /** One more 2 s backoff step waits `1000 * 2^(m+1)` ms: the inline loop
      doubles after counting the failed attempt. */
  lemma BackoffStep(m: nat)
    ensures Retry.Backoff(2000, m + 1) == Retry.Backoff(2000, m) + [1000 * Pow2(m + 1)]
  {
    assert Pow2(m + 1) == 2 * Pow2(m);
    var l, r := Retry.Backoff(2000, m + 1), Retry.Backoff(2000, m) + [1000 * Pow2(m + 1)];
    assert |l| == |r|;
    forall i | 0 <= i < |l| ensures l[i] == r[i] {
      if i < m {
        assert r[i] == Retry.Backoff(2000, m)[i];
      }
    }
  }

  /** The first m waits of a 2 s backoff, for m at most two. */
  lemma BackoffPrefix(m: nat)
    requires m <= 2
    ensures Retry.Backoff(2000, m) == [2000, 4000][..m]
  {
    assert Pow2(1) == 2;
    if m == 1 {
      assert Retry.Backoff(2000, 1) == [2000];
    } else if m == 2 {
      assert Retry.Backoff(2000, 2) == [2000, 4000];
    }
  }

  /** Without a webhook URL the three attempts still run, and still wait
      between them, but none posts: the visitor sees the failure toast after
      six seconds. */
  lemma UnconfiguredWebhookFails(msg: string, st: StoreState, url: Option<string>, responses: seq<bool>)
    requires |responses| >= MaxRetries
    requires !Present(url)
    ensures Attempts(msg, st, url, responses) == (SubmitRun([Failed], [], [2000, 4000]), st)
  {
    assert Pow2(1) == 2;
    assert Retry.Backoff(2000, 2) == [2000, 4000];
  }

  /** Before the loop: a blank first entry, missing contact details or
      details that do not parse each end the submit with its own notice,
      without posting and without touching the store; otherwise the loop
      runs with the message built from the parsed details and the entries
      as they are. */
  lemma SubmitPrechecks(e: Entries, st: StoreState, url: Option<string>, responses: seq<bool>)
    requires |responses| >= MaxRetries
    ensures var r := SubmitSpec(e, st, url, responses);
            var stored := Get(st, UserInfoKey);
            && (IsBlank(e.entry1) ==>
                  r.0.posts == [] && r.0.delays == [] && r.1 == st && r.0.effects == [Toast(EntryMissing)])
            && (!IsBlank(e.entry1) && !Present(stored) ==>
                  r.0.posts == [] && r.0.delays == [] && r.1 == st
                  && r.0.effects == [Toast(SessionExpired), Navigate(InfoRoute)])
            && (!IsBlank(e.entry1) && Present(stored) && DecodeContact(stored.value).None? ==>
                  r.0.posts == [] && r.0.delays == [] && r.1 == st
                  && r.0.effects == [Toast(SessionError), Navigate(InfoRoute)])
            && (!IsBlank(e.entry1) && Present(stored) && DecodeContact(stored.value).Some? ==>
                  r == Attempts(FormatDiscordMessage(DecodeContact(stored.value).value, e), st, url, responses))
  {
    var r := SubmitSpec(e, st, url, responses);
    var stored := Get(st, UserInfoKey);
    if IsBlank(e.entry1) {
      assert r == (SubmitRun([Toast(EntryMissing)], [], []), st);
    } else if !Present(stored) {
      assert r == (SubmitRun([Toast(SessionExpired), Navigate(InfoRoute)], [], []), st);
    } else if DecodeContact(stored.value).None? {
      assert r == (SubmitRun([Toast(SessionError), Navigate(InfoRoute)], [], []), st);
    } else {
      var u := DecodeContact(stored.value).value;
      assert r == Attempts(FormatDiscordMessage(u, e), st, url, responses);
    }
  }

  /** The two steps together: contact details stored by the first step are
      read back unchanged, so when the first post succeeds exactly one
      message goes out, built from the details as entered, and both keys
      are cleared. */
  lemma FirstStepFeedsSecond(c: ContactInfo, e: Entries, st: StoreState, url: Option<string>, responses: seq<bool>)
    requires |responses| >= MaxRetries
    requires !st.failing && !IsBlank(e.entry1) && Present(url) && responses[0]
    ensures var st1 := Set(st, UserInfoKey, EncodeContact(c));
            SubmitSpec(e, st1, url, responses)
              == (SubmitRun([Navigate(ThankYouRoute)], [FormatDiscordMessage(c, e)], []),
                  Remove(Remove(st1, UserInfoKey), DraftKey))
  {
    var st1 := Set(st, UserInfoKey, EncodeContact(c));
    var msg := FormatDiscordMessage(c, e);
    ContactRoundTrip(c);
    assert EncodeContact(c)[0] == '{';
    assert Get(st1, UserInfoKey) == Some(EncodeContact(c));
    SubmitPrechecks(e, st1, url, responses);
    assert SucceedingAttempt(url, responses) == 0;
    assert Repeat(msg, 1) == [msg];
    assert Retry.Backoff(2000, 0) == [];
  }

  // ----- The page -----

  /** The entries page: its component state, the pending autosave timer and
      the shared store. */
  class SubmissionPage {
    var entries: Entries
    var pendingDraft: Option<Entries>
    const store: SafeStorage

    /** The autosave state of the page. */
    function Autosaving(): Autosave
      reads this
    {
      Autosave(entries, pendingDraft)
    }

    constructor (store: SafeStorage)
      ensures entries == NoEntries && pendingDraft == None && this.store == store
    {
      entries := NoEntries;
      pendingDraft := None;
      this.store := store;
    }

    /** The navigation guard effect. */
    method CheckSession() returns (effects: seq<Effect>)
      ensures effects == GuardEffects(store.State())
    {
      var userInfo := store.GetItem(UserInfoKey);
      if userInfo.None? || userInfo.value == "" {
        effects := [Toast(SessionRequired), Navigate(InfoRoute)];
      } else {
        effects := [];
      }
    }

    /** The mount-time draft load. */
    method LoadDraft()
      modifies this`entries
      ensures entries == LoadedEntries(old(entries), Get(store.State(), DraftKey))
    {
      var saved := store.GetItem(DraftKey);
      if saved.Some? && saved.value != "" {
        var parsed := DecodeEntries(saved.value);
        if parsed.Some? {
          entries := parsed.value;
        }
      }
    }

    /** The autosave effect after a render with new entries: cancel the
        pending timer and arm a new one holding the current entries. */
    method ScheduleAutosave()
      modifies this`pendingDraft
      ensures pendingDraft == Some(entries)
    {
      pendingDraft := Some(entries);
    }

    /** Mount: the guard, the draft load and the first arming of the
        autosave timer, in the order the effects are declared. */
    method Mount() returns (effects: seq<Effect>)
      modifies this`entries, this`pendingDraft
      ensures effects == GuardEffects(store.State())
      ensures entries == LoadedEntries(old(entries), Get(store.State(), DraftKey))
      ensures pendingDraft == Some(entries)
    {
      effects := CheckSession();
      LoadDraft();
      ScheduleAutosave();
    }

    /** `handleEntryChange(entryNumber, value)`, followed by the re-render
        that re-arms the autosave timer. */
    method HandleEntryChange(field: EntryField, value: string)
      modifies this`entries, this`pendingDraft
      ensures (Autosaving(), None) == Step(old(Autosaving()), Edit(field, value))
    {
      entries := entries.Update(field, value);
      ScheduleAutosave();
    }

    /** The autosave timer fires: the captured entries are saved as the
        draft, if a save is pending. */
    method AutosaveElapsed()
      modifies this`pendingDraft, store`items
      ensures Autosaving() == Step(old(Autosaving()), Elapsed).0
      ensures var w := Step(old(Autosaving()), Elapsed).1;
              store.State() == if w.Some? then Set(old(store.State()), DraftKey, EncodeEntries(w.value))
                               else old(store.State())
    {
      if pendingDraft.Some? {
        store.SetItem(DraftKey, EncodeEntries(pendingDraft.value));
      }
      pendingDraft := None;
    }

    /** Leaving the page: the effect cleanup cancels the pending timer. */
    method Unmount()
      modifies this`pendingDraft
      ensures (Autosaving(), None) == Step(old(Autosaving()), Leave)
    {
      pendingDraft := None;
    }

    /** `handleSubmit`: the checks before the loop, then the loop. */
    method HandleSubmit(url: Option<string>, responses: seq<bool>) returns (run: SubmitRun)
      requires |responses| >= MaxRetries
      modifies store`items
      ensures (run, store.State()) == SubmitSpec(old(entries), old(store.State()), url, responses)
    {
      SubmitPrechecks(entries, store.State(), url, responses);
      if IsBlank(entries.entry1) {
        return SubmitRun([Toast(EntryMissing)], [], []);
      }
      var userInfo := store.GetItem(UserInfoKey);
      if userInfo.None? || userInfo.value == "" {
        return SubmitRun([Toast(SessionExpired), Navigate(InfoRoute)], [], []);
      }
      var parsed := DecodeContact(userInfo.value);
      if parsed.None? {
        return SubmitRun([Toast(SessionError), Navigate(InfoRoute)], [], []);
      }
      ghost var expected := SubmitSpec(entries, store.State(), url, responses);
      assert expected == Attempts(FormatDiscordMessage(parsed.value, entries), store.State(), url, responses);
      run := SubmitWithRetries(parsed.value, url, responses);
    }

    /** Removes the stored contact details and the draft. */
    method ClearSession()
      modifies store`items
      ensures store.State() == Remove(Remove(old(store.State()), UserInfoKey), DraftKey)
    {
      store.RemoveItem(UserInfoKey);
      store.RemoveItem(DraftKey);
    }

    /** The inline retry loop of `handleSubmit`: the message is built and
        the webhook checked on every attempt, each failure counts an
        attempt, and a failure that is not the last waits `1000 * 2^attempt`
        ms with the attempt count already increased. The loop stops at the
        first accepted post, or after `MaxRetries` attempts with `attempt`
        equal to `MaxRetries`. */
    method PostAttempts(u: ContactInfo, url: Option<string>, responses: seq<bool>)
      returns (accepted: bool, attempt: nat, posts: seq<string>, delays: seq<int>)
      requires |responses| >= MaxRetries
      ensures var k := SucceedingAttempt(url, responses);
              && accepted == (k < MaxRetries)
              && attempt == k
              && posts == (if Present(url) then Repeat(FormatDiscordMessage(u, entries), if accepted then k + 1 else k) else [])
              && delays == Retry.Backoff(2000, if accepted then k else MaxRetries - 1)
    {
      ghost var msg := FormatDiscordMessage(u, entries);
      ghost var k := SucceedingAttempt(url, responses);
      posts, delays, attempt := [], [], 0;
      while attempt < MaxRetries
        invariant attempt <= MaxRetries && attempt <= k
        invariant posts == if Present(url) then Repeat(msg, attempt) else []
        invariant attempt < MaxRetries ==> delays == Retry.Backoff(2000, attempt)
        invariant attempt == MaxRetries ==> delays == Retry.Backoff(2000, MaxRetries - 1)
      {
        var message := FormatDiscordMessage(u, entries);
        var ok := false;
        if url.Some? && url.value != "" {
          posts := posts + [message];
          ok := responses[attempt];
        }
        if ok {
          assert attempt == k;
          return true, attempt, posts, delays;
        }
        assert attempt < k;
        attempt := attempt + 1;
        if attempt < MaxRetries {
          BackoffStep(attempt - 1);
          delays := delays + [1000 * Pow2(attempt)];
        }
      }
      accepted := false;
    }

    /** What follows the loop: on an accepted post the stored contact
        details and draft are removed and the page moves to `/thank-you`;
        otherwise the failure toast reports the attempt count. */
    method SubmitWithRetries(u: ContactInfo, url: Option<string>, responses: seq<bool>) returns (run: SubmitRun)
      requires |responses| >= MaxRetries
      modifies store`items
      ensures (run, store.State()) == Attempts(FormatDiscordMessage(u, old(entries)), old(store.State()), url, responses)
    {
      ghost var msg := FormatDiscordMessage(u, entries);
      var accepted, attempt, posts, delays := PostAttempts(u, url, responses);
      AttemptsOutcome(msg, store.State(), url, responses);
      if accepted {
        ClearSession();
        run := SubmitRun([Navigate(ThankYouRoute)], posts, delays);
      } else {
        run := SubmitRun([Toast(SubmissionFailed(attempt))], posts, delays);
      }
    }
  }
}
