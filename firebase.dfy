/** Push-notification hooks of the theme: the "message sent" handler, which
    resolves recipients from four ordered sources and pushes one notification
    per recipient, and the "listing expired" / "listing deactivated" handlers,
    which push one notification to the listing's author.

    Everything the handlers call outside this file (user and post lookups, the
    participants helper, post meta, the push sender, the text helpers) is a
    field of `Site`; the push sender's answers are recorded in the call trace. */
module Firebase {
  import opened Php

  /** Number of words `wp_trim_words` keeps in the message preview. */
  const PreviewWords := 20
  const FallbackPreview := "You have received a new message"
  const TitlePrefix := "New message from "
  const NewMessageKind := "new_message"
  const ListingExpiredKind := "listing_expired"
  const ListingDeactivatedKind := "listing_deactivated"

  /** `$message['message_to_id']`: absent, one value, or an array. */
  datatype RecipientField = NotSet | Single(v: Val) | Many(vs: seq<Val>)

  /** The `$message` array the messaging plugin passes; `content` is `Null`
      when `message_content` is not set. */
  datatype MessageData = MessageData(toId: RecipientField, content: Val)

  /** `$inserted_message`: a post object, or anything that is not an object. */
  datatype InsertedMessage = NotAnObject | Post(author: Val, parent: int, content: string)

  datatype User = User(displayName: string, login: string)

  datatype Listing = Listing(author: Val, title: string)

  /** The page a notification opens; the URL is represented by the id it is built from. */
  datatype Action = ViewMessage(messageId: int) | EditListing(listingId: int)

  datatype Notification = Notification(title: string, body: string, icon: string, badge: string,
                                       kind: string, action: Action)

  /** One call of `fpn_send_push(to, data)` and the answer it gave. */
  datatype PushCall = PushCall(to: Val, data: Notification, delivered: bool)

  /** The four recipient sources, in the order they are consulted. */
  datatype Tier = ToField | ParticipantsFn | MessageMeta | ParentMeta

  datatype Skip = InvalidMessage | NoSenderId | SenderNotFound | NoRecipients

  datatype Outcome = Skipped(reason: Skip) | Notified(recipients: seq<int>)

  /** What one run of the message-sent handler did: how it ended, which
      recipient sources it read, and the pushes it issued. */
  datatype Dispatch = Dispatch(outcome: Outcome, consulted: seq<Tier>, calls: seq<PushCall>)

  /** The WordPress environment the handlers see. Non-array answers of the
      participants helper and of the meta API are given as empty sequences:
      the handler skips them exactly as it skips empty arrays. */
  datatype Site = Site(
    users: map<int, User>,                         // get_user_by('id', ...)
    posts: map<int, Listing>,                      // get_post / get_the_title
    hasParticipantsFn: bool,                       // function_exists('difp_get_participants')
    participantsFn: Val -> seq<Val>,               // difp_get_participants
    participantsMeta: Val -> seq<Val>,             // get_post_meta(id, '_difp_participants')
    hasPush: bool,                                 // function_exists('fpn_send_push')
    push: (Val, Notification) -> bool,             // fpn_send_push
    iconUrl: string,                               // get_site_icon_url
    stripTags: string -> string,                   // strip_tags
    trimWords: (string, nat) -> string)            // wp_trim_words

  datatype Event = Event(messageId: Val, message: MessageData, inserted: InsertedMessage)

  predicate NoDuplicates(xs: seq<int>)
  {
    forall i, j :: 0 <= i < j < |xs| ==> xs[i] != xs[j]
  }

  /** The position of the first occurrence of `x` in `xs`. */
  function FirstIndex(xs: seq<int>, x: int): (k: nat)
    requires x in xs
    ensures k < |xs| && xs[k] == x
    ensures forall m :: 0 <= m < k ==> xs[m] != x
  {
    if x in xs[..|xs| - 1] then FirstIndex(xs[..|xs| - 1], x) else |xs| - 1
  }

  /** A resolved id is kept when it is non-zero and not the sender. */
  predicate Keeps(id: int, sender: int)
  {
    id != 0 && id != sender
  }

  /** The ids one source contributes: `intval` of each raw entry, in order,
      dropping 0 and the sender. */
  function Filter(raw: seq<Val>, sender: int): (r: seq<int>)
    ensures |r| <= |raw|
    ensures forall x :: x in r ==> Keeps(x, sender)
  {
    if raw == [] then []
    else
      var id := IntVal(raw[|raw| - 1]);
      Filter(raw[..|raw| - 1], sender) + (if Keeps(id, sender) then [id] else [])
  }

  /** `array_unique`: the first occurrence of each id, in order. */
  function Unique(xs: seq<int>): (r: seq<int>)
    ensures forall x :: x in r <==> x in xs
    ensures NoDuplicates(r)
    ensures |r| <= |xs|
  {
    if xs == [] then []
    else
      var d := Unique(xs[..|xs| - 1]);
      var x := xs[|xs| - 1];
      assert xs == xs[..|xs| - 1] + [x];
      if x in d then d else d + [x]
  }

  /** The raw entries of the `message_to_id` field: a non-empty scalar is one
      entry, an array is its elements. */
  function ToIdEntries(f: RecipientField): seq<Val>
  {
    match f
    case NotSet => []
    case Single(v) => if Truthy(v) then [v] else []
    case Many(vs) => vs
  }

  /** Whether the handler reads a source at all once it gets to it. */
  predicate Readable(t: Tier, e: Event, site: Site)
    requires e.inserted.Post?
  {
    match t
    case ParticipantsFn => site.hasParticipantsFn
    case ParentMeta => e.inserted.parent != 0
    case _ => true
  }

  function RawTier(t: Tier, e: Event, site: Site): seq<Val>
    requires e.inserted.Post?
  {
    match t
    case ToField => ToIdEntries(e.message.toId)
    case ParticipantsFn => site.participantsFn(e.messageId)
    case MessageMeta => site.participantsMeta(e.messageId)
    case ParentMeta => site.participantsMeta(Int(e.inserted.parent))
  }

  /** The ids a source yields, or none when it is not read. */
  function TierIds(t: Tier, e: Event, site: Site, sender: int): seq<int>
    requires e.inserted.Post?
  {
    if Readable(t, e, site) then Filter(RawTier(t, e, site), sender) else []
  }

  const TierOrder: seq<Tier> := [ToField, ParticipantsFn, MessageMeta, ParentMeta]

  /** The ids each source would yield, in consultation order. */
  function TierResults(e: Event, site: Site, sender: int): (rs: seq<seq<int>>)
    requires e.inserted.Post?
    ensures |rs| == |TierOrder|
  {
    [TierIds(ToField, e, site, sender), TierIds(ParticipantsFn, e, site, sender),
     TierIds(MessageMeta, e, site, sender), TierIds(ParentMeta, e, site, sender)]
  }

  /** The first non-empty result of an ordered list of sources. */
  function FirstNonEmpty(rs: seq<seq<int>>): seq<int>
  {
    if rs == [] then []
    else if rs[0] != [] then rs[0]
    else FirstNonEmpty(rs[1..])
  }

  /** The sources the handler reads: each readable source up to and including
      the first one that yields an id. */
  function Consulted(e: Event, site: Site, sender: int): seq<Tier>
    requires e.inserted.Post?
  {
    var rs := TierResults(e, site, sender);
    ConsultedFrom(rs[0] == [], rs[1] == [], rs[2] == [], site.hasParticipantsFn, e.inserted.parent != 0)
  }

  /** The sources read, given which of the first three came back empty,
      whether the participants helper exists and whether there is a parent. */
  function ConsultedFrom(empty0: bool, empty1: bool, empty2: bool, hasFn: bool, hasParent: bool): seq<Tier>
  {
    [ToField]
    + (if empty0 && hasFn then [ParticipantsFn] else [])
    + (if empty0 && empty1 then [MessageMeta] else [])
    + (if empty0 && empty1 && empty2 && hasParent then [ParentMeta] else [])
  }

  function SenderName(u: User): string
  {
    if Truthy(Str(u.displayName)) then u.displayName else u.login
  }

  /** The notification body: the trimmed, tag-stripped content (the payload's
      `message_content` when set, otherwise the post content), or the fixed
      fallback text when that content is empty. */
  function Preview(e: Event, site: Site): string
    requires e.inserted.Post?
  {
    var content := if e.message.content != Null then e.message.content else Str(e.inserted.content);
    if Truthy(content) then site.trimWords(site.stripTags(StrVal(content)), PreviewWords)
    else FallbackPreview
  }

  function MessageNotification(e: Event, site: Site, sender: User): Notification
    requires e.inserted.Post?
  {
    Notification(TitlePrefix + SenderName(sender), Preview(e, site), site.iconUrl, site.iconUrl,
                 NewMessageKind, ViewMessage(IntVal(e.messageId)))
  }

  /** One push per recipient, in order, all carrying the same notification;
      none when the push helper is missing. */
  function Pushes(recipients: seq<int>, note: Notification, site: Site): seq<PushCall>
  {
    if !site.hasPush then []
    else seq(|recipients|, k requires 0 <= k < |recipients| =>
               PushCall(Int(recipients[k]), note, site.push(Int(recipients[k]), note)))
  }

  /** What the message-sent handler does, as a function of its inputs. */
  function MessageSentEffect(e: Event, site: Site): Dispatch
  {
    if !Truthy(e.messageId) || !e.inserted.Post? then Dispatch(Skipped(InvalidMessage), [], [])
    else
      var sender := IntVal(e.inserted.author);
      if sender == 0 then Dispatch(Skipped(NoSenderId), [], [])
      else if sender !in site.users then Dispatch(Skipped(SenderNotFound), [], [])
      else
        var recipients := Unique(FirstNonEmpty(TierResults(e, site, sender)));
        var consulted := Consulted(e, site, sender);
        if recipients == [] then Dispatch(Skipped(NoRecipients), consulted, [])
        else
          var note := MessageNotification(e, site, site.users[sender]);
          Dispatch(Notified(recipients), consulted, Pushes(recipients, note, site))
  }

  /** The loop that appends one source's kept ids to the accumulator. */
  method AppendFiltered(ids: seq<int>, raw: seq<Val>, sender: int) returns (out: seq<int>)
    ensures out == ids + Filter(raw, sender)
  {
    out := ids;
    var i := 0;
    while i < |raw|
      invariant 0 <= i <= |raw|
      invariant out == ids + Filter(raw[..i], sender)
    {
      var id := IntVal(raw[i]);
      if id != 0 && id != sender {
        out := out + [id];
      }
      assert raw[..i + 1][..i] == raw[..i];
      i := i + 1;
    }
    assert raw[..|raw|] == raw;
  }

  /** The send loop: one `fpn_send_push` call per recipient, whatever the
      earlier calls answered. */
  method SendEach(recipients: seq<int>, note: Notification, site: Site) returns (calls: seq<PushCall>)
    ensures |calls| == if site.hasPush then |recipients| else 0
    ensures forall k :: 0 <= k < |calls| ==>
              calls[k] == PushCall(Int(recipients[k]), note, site.push(Int(recipients[k]), note))
    ensures calls == Pushes(recipients, note, site)
  {
    calls := [];
    var i := 0;
    while i < |recipients|
      invariant 0 <= i <= |recipients|
      invariant |calls| == if site.hasPush then i else 0
      invariant forall k :: 0 <= k < |calls| ==>
                  calls[k] == PushCall(Int(recipients[k]), note, site.push(Int(recipients[k]), note))
    {
      if site.hasPush {
        var to := Int(recipients[i]);
        var delivered := site.push(to, note);
        calls := calls + [PushCall(to, note, delivered)];
      }
      i := i + 1;
    }
  }

  /** One fallback block: read the source only while no id has been found
      yet and the source is available. */
  method Fallback(ids: seq<int>, consulted: seq<Tier>, tier: Tier, available: bool, raw: seq<Val>, sender: int)
    returns (ids': seq<int>, consulted': seq<Tier>)
    ensures ids == [] && available ==> ids' == Filter(raw, sender) && consulted' == consulted + [tier]
    ensures !(ids == [] && available) ==> ids' == ids && consulted' == consulted
  {
    ids', consulted' := ids, consulted;
    if ids == [] && available {
      consulted' := consulted + [tier];
      ids' := AppendFiltered(ids, raw, sender);
      assert [] + Filter(raw, sender) == Filter(raw, sender);
    }
  }

  /** The four guarded accumulation blocks: each later source is read only
      while no earlier source has yielded an id. */
  method ResolveRecipients(e: Event, site: Site, sender: int) returns (ids: seq<int>, consulted: seq<Tier>)
    requires e.inserted.Post?
    ensures ids == FirstNonEmpty(TierResults(e, site, sender))
    ensures consulted == Consulted(e, site, sender)
  {
    ghost var rs := TierResults(e, site, sender);
    FirstNonEmptyOfFour(rs);
    TierValues(e, site, sender);
    ids, consulted := Fallback([], [], ToField, true, ToIdEntries(e.message.toId), sender);
    assert ids == rs[0];
    ghost var c := [ToField];
    assert consulted == c;
    ids, consulted := Fallback(ids, consulted, ParticipantsFn, site.hasParticipantsFn,
                               site.participantsFn(e.messageId), sender);
    c := c + (if rs[0] == [] && site.hasParticipantsFn then [ParticipantsFn] else []);
    assert consulted == c;
    assert ids == if rs[0] != [] then rs[0] else rs[1];
    ids, consulted := Fallback(ids, consulted, MessageMeta, true, site.participantsMeta(e.messageId), sender);
    c := c + (if rs[0] == [] && rs[1] == [] then [MessageMeta] else []);
    assert consulted == c;
    assert ids == if rs[0] != [] then rs[0] else if rs[1] != [] then rs[1] else rs[2];
    ids, consulted := Fallback(ids, consulted, ParentMeta, e.inserted.parent != 0,
                               site.participantsMeta(Int(e.inserted.parent)), sender);
    c := c + (if rs[0] == [] && rs[1] == [] && rs[2] == [] && e.inserted.parent != 0 then [ParentMeta] else []);
    assert consulted == c;
  }

  /** `classiadspro_firebase_message_sent`. */
  method OnMessageSent(e: Event, site: Site) returns (d: Dispatch)
    ensures d == MessageSentEffect(e, site)
  {
    if !Truthy(e.messageId) || !e.inserted.Post? {
      return Dispatch(Skipped(InvalidMessage), [], []);
    }
    var sender := IntVal(e.inserted.author);
    if sender == 0 {
      return Dispatch(Skipped(NoSenderId), [], []);
    }
    if sender !in site.users {
      return Dispatch(Skipped(SenderNotFound), [], []);
    }
    var user := site.users[sender];
    var ids, consulted := ResolveRecipients(e, site, sender);
    ids := Unique(ids);
    if ids == [] {
      return Dispatch(Skipped(NoRecipients), consulted, []);
    }
    var note := MessageNotification(e, site, user);
    var calls := SendEach(ids, note, site);
    d := Dispatch(Notified(ids), consulted, calls);
  }

  /** What each of the four sources yields, written out. */
  lemma TierValues(e: Event, site: Site, sender: int)
    requires e.inserted.Post?
    ensures var rs := TierResults(e, site, sender);
            && rs[0] == Filter(ToIdEntries(e.message.toId), sender)
            && rs[1] == (if site.hasParticipantsFn then Filter(site.participantsFn(e.messageId), sender) else [])
            && rs[2] == Filter(site.participantsMeta(e.messageId), sender)
            && rs[3] == (if e.inserted.parent != 0 then Filter(site.participantsMeta(Int(e.inserted.parent)), sender)
                         else [])
  {
  }

  /** The recursive definition of `FirstNonEmpty` written out for four sources. */
  lemma FirstNonEmptyOfFour(rs: seq<seq<int>>)
    requires |rs| == 4
    ensures FirstNonEmpty(rs)
            == if rs[0] != [] then rs[0] else if rs[1] != [] then rs[1] else if rs[2] != [] then rs[2] else rs[3]
  {
    var r1 := rs[1..];
    var r2 := r1[1..];
    var r3 := r2[1..];
    assert r3[0] == rs[3] && r3[1..] == [];
    assert FirstNonEmpty(r3) == rs[3];
    assert FirstNonEmpty(r2) == if rs[2] != [] then rs[2] else rs[3];
    assert FirstNonEmpty(r1) == if rs[1] != [] then rs[1] else if rs[2] != [] then rs[2] else rs[3];
    assert r2[0] == rs[2];
    assert r1[0] == rs[1];
  }

  /** An id is in a source's contribution exactly when some raw entry converts
      to it and it is neither 0 nor the sender. */
  lemma {:induction false} FilterMembers(raw: seq<Val>, sender: int, x: int)
    ensures x in Filter(raw, sender) <==> Keeps(x, sender) && exists i :: 0 <= i < |raw| && IntVal(raw[i]) == x
  {
    if raw != [] {
      var init := raw[..|raw| - 1];
      FilterMembers(init, sender, x);
      if x in Filter(raw, sender) && x !in Filter(init, sender) {
        assert IntVal(raw[|raw| - 1]) == x;
      }
      if Keeps(x, sender) && exists i :: 0 <= i < |raw| && IntVal(raw[i]) == x {
        var i :| 0 <= i < |raw| && IntVal(raw[i]) == x;
        if i < |raw| - 1 {
          assert IntVal(init[i]) == x;
        }
      }
    }
  }

  /** `FirstNonEmpty` returns the first non-empty source, and nothing only when
      every source is empty. */
  lemma {:induction false} FirstNonEmptyIsFirst(rs: seq<seq<int>>)
    ensures FirstNonEmpty(rs) == [] <==> forall k :: 0 <= k < |rs| ==> rs[k] == []
    ensures FirstNonEmpty(rs) != [] ==>
              exists k :: 0 <= k < |rs| && FirstNonEmpty(rs) == rs[k] && forall j :: 0 <= j < k ==> rs[j] == []
  {
    if rs != [] && rs[0] == [] {
      FirstNonEmptyIsFirst(rs[1..]);
      assert forall k :: 1 <= k < |rs| ==> rs[k] == rs[1..][k - 1];
      if FirstNonEmpty(rs) != [] {
        var k :| 0 <= k < |rs[1..]| && FirstNonEmpty(rs[1..]) == rs[1..][k]
                 && forall j :: 0 <= j < k ==> rs[1..][j] == [];
        assert FirstNonEmpty(rs) == rs[k + 1];
        assert forall j :: 0 <= j < k + 1 ==> rs[j] == [] by {
          forall j | 0 <= j < k + 1 ensures rs[j] == [] {
            if j > 0 { assert rs[j] == rs[1..][j - 1]; }
          }
        }
      }
    }
  }

  /** `array_unique` leaves a list without duplicates as it is. */
  lemma {:induction false} UniqueOfDistinct(xs: seq<int>)
    requires NoDuplicates(xs)
    ensures Unique(xs) == xs
  {
    if xs != [] {
      var init := xs[..|xs| - 1];
      UniqueOfDistinct(init);
      assert xs[|xs| - 1] !in init;
      assert xs == init + [xs[|xs| - 1]];
    }
  }

  /** `array_unique` keeps the ids in the order of their first occurrences:
      together with `Unique`'s own contract this fixes its result. */
  lemma {:induction false} UniqueKeepsFirstOccurrenceOrder(xs: seq<int>)
    ensures forall i, j :: 0 <= i < j < |Unique(xs)| ==>
              FirstIndex(xs, Unique(xs)[i]) < FirstIndex(xs, Unique(xs)[j])
  {
    if xs != [] {
      var init := xs[..|xs| - 1];
      var x := xs[|xs| - 1];
      var d := Unique(init);
      UniqueKeepsFirstOccurrenceOrder(init);
      forall y | y in init
        ensures FirstIndex(xs, y) == FirstIndex(init, y)
      {
        assert xs[..|xs| - 1] == init;
      }
      if x !in d {
        assert Unique(xs) == d + [x];
        assert x !in init;
      }
    }
  }

  /** `ConsultedFrom` lists a source exactly when it is available and every
      earlier source came back empty, in their fixed order. */
  lemma ConsultedFromShape(empty0: bool, empty1: bool, empty2: bool, hasFn: bool, hasParent: bool)
    ensures var c := ConsultedFrom(empty0, empty1, empty2, hasFn, hasParent);
            && ToField in c
            && (ParticipantsFn in c <==> hasFn && empty0)
            && (MessageMeta in c <==> empty0 && empty1)
            && (ParentMeta in c <==> hasParent && empty0 && empty1 && empty2)
            && (forall i, j :: 0 <= i < j < |c| ==> Rank(c[i]) < Rank(c[j]))
  {
    var c := ConsultedFrom(empty0, empty1, empty2, hasFn, hasParent);
    if !empty0 {
      assert c == [ToField];
    } else if !empty1 {
      if hasFn { assert c == [ToField, ParticipantsFn]; } else { assert c == [ToField]; }
    } else if !empty2 {
      if hasFn { assert c == [ToField, ParticipantsFn, MessageMeta]; } else { assert c == [ToField, MessageMeta]; }
    } else if hasFn {
      if hasParent { assert c == [ToField, ParticipantsFn, MessageMeta, ParentMeta]; }
      else { assert c == [ToField, ParticipantsFn, MessageMeta]; }
    } else {
      if hasParent { assert c == [ToField, MessageMeta, ParentMeta]; } else { assert c == [ToField, MessageMeta]; }
    }
  }

  /** A source is read exactly when it is available and every earlier source
      yielded nothing; the sources are read in their fixed order. */
  lemma ConsultedOnlyAfterEmptySources(e: Event, site: Site, sender: int)
    requires e.inserted.Post?
    ensures var rs := TierResults(e, site, sender);
            var c := Consulted(e, site, sender);
            && ToField in c
            && (ParticipantsFn in c <==> site.hasParticipantsFn && rs[0] == [])
            && (MessageMeta in c <==> rs[0] == [] && rs[1] == [])
            && (ParentMeta in c <==> e.inserted.parent != 0 && rs[0] == [] && rs[1] == [] && rs[2] == [])
    ensures var c := Consulted(e, site, sender);
            forall i, j :: 0 <= i < j < |c| ==> Rank(c[i]) < Rank(c[j])
  {
    var rs := TierResults(e, site, sender);
    ConsultedFromShape(rs[0] == [], rs[1] == [], rs[2] == [], site.hasParticipantsFn, e.inserted.parent != 0);
  }

  function Rank(t: Tier): nat
  {
    match t
    case ToField => 0
    case ParticipantsFn => 1
    case MessageMeta => 2
    case ParentMeta => 3
  }

  /** No push when the message id is falsy, the inserted message is not an
      object, the sender id is 0 or the sender is not a user. */
  lemma NoPushWithoutMessageAndSender(e: Event, site: Site)
    requires !Truthy(e.messageId) || !e.inserted.Post? || IntVal(e.inserted.author) == 0
             || IntVal(e.inserted.author) !in site.users
    ensures MessageSentEffect(e, site).outcome.Skipped?
    ensures MessageSentEffect(e, site).calls == []
    ensures MessageSentEffect(e, site).consulted == []
  {
  }

  /** Every push goes to a non-zero id other than the sender's, whichever
      source produced the recipients, and no recipient is pushed twice. */
  lemma PushesExcludeSender(e: Event, site: Site)
    requires e.inserted.Post?
    ensures var d := MessageSentEffect(e, site);
            forall k :: 0 <= k < |d.calls| ==>
              d.calls[k].to.Int? && Keeps(d.calls[k].to.i, IntVal(e.inserted.author))
    ensures var d := MessageSentEffect(e, site);
            forall i, j :: 0 <= i < j < |d.calls| ==> d.calls[i].to != d.calls[j].to
  {
    var d := MessageSentEffect(e, site);
    var sender := IntVal(e.inserted.author);
    if d.outcome.Notified? {
      var rs := TierResults(e, site, sender);
      var first := FirstNonEmpty(rs);
      FirstNonEmptyIsFirst(rs);
      var k :| 0 <= k < |rs| && first == rs[k] && forall j :: 0 <= j < k ==> rs[j] == [];
      assert forall x :: x in first ==> Keeps(x, sender);
    }
  }

  /** When no source yields an id (after dropping 0 and the sender), nothing is pushed. */
  lemma NoRecipientsNoPush(e: Event, site: Site)
    requires e.inserted.Post? && Truthy(e.messageId)
    requires IntVal(e.inserted.author) != 0 && IntVal(e.inserted.author) in site.users
    requires forall k :: 0 <= k < |TierOrder| ==> TierIds(TierOrder[k], e, site, IntVal(e.inserted.author)) == []
    ensures MessageSentEffect(e, site).outcome == Skipped(NoRecipients)
    ensures MessageSentEffect(e, site).calls == []
  {
    var rs := TierResults(e, site, IntVal(e.inserted.author));
    assert forall j :: 0 <= j < |rs| ==> rs[j] == TierIds(TierOrder[j], e, site, IntVal(e.inserted.author));
    FirstNonEmptyIsFirst(rs);
  }

  /** A run that notifies got past validation and its recipients are the
      de-duplicated first non-empty source. */
  lemma NotifiedRecipients(e: Event, site: Site)
    requires MessageSentEffect(e, site).outcome.Notified?
    ensures e.inserted.Post?
    ensures MessageSentEffect(e, site).outcome.recipients
            == Unique(FirstNonEmpty(TierResults(e, site, IntVal(e.inserted.author))))
    ensures MessageSentEffect(e, site).outcome.recipients != []
  {
  }

  /** The de-duplicated first non-empty list holds exactly the elements of
      some list all of whose predecessors are empty. */
  lemma UniqueFirstNonEmpty(rs: seq<seq<int>>)
    ensures Unique(FirstNonEmpty(rs)) != [] ==>
              exists k :: 0 <= k < |rs| && (forall j :: 0 <= j < k ==> rs[j] == [])
                && (forall x :: x in Unique(FirstNonEmpty(rs)) <==> x in rs[k])
  {
    FirstNonEmptyIsFirst(rs);
  }

  /** The entries of `TierResults` are the sources in `TierOrder`. */
  lemma TierResultsInOrder(e: Event, site: Site, sender: int)
    requires e.inserted.Post?
    ensures forall j :: 0 <= j < |TierOrder| ==>
              TierResults(e, site, sender)[j] == TierIds(TierOrder[j], e, site, sender)
  {
    var rs := TierResults(e, site, sender);
    forall j | 0 <= j < |TierOrder|
      ensures rs[j] == TierIds(TierOrder[j], e, site, sender)
    {
      if j == 0 { assert TierOrder[0] == ToField; }
      else if j == 1 { assert TierOrder[1] == ParticipantsFn; }
      else if j == 2 { assert TierOrder[2] == MessageMeta; }
      else { assert TierOrder[3] == ParentMeta; }
    }
  }

  /** The de-duplicated first non-empty source holds exactly the ids of some
      source all of whose predecessors yielded nothing. */
  lemma FirstSourceWins(e: Event, site: Site, sender: int)
    requires e.inserted.Post?
    ensures var r := Unique(FirstNonEmpty(TierResults(e, site, sender)));
            r != [] ==>
              exists k :: 0 <= k < |TierOrder|
                && (forall j :: 0 <= j < k ==> TierIds(TierOrder[j], e, site, sender) == [])
                && (forall x :: x in r <==> x in TierIds(TierOrder[k], e, site, sender))
  {
    var rs := TierResults(e, site, sender);
    UniqueFirstNonEmpty(rs);
    TierResultsInOrder(e, site, sender);
  }

  /** The recipients are, without repetition, exactly the ids of the first
      source that yields any; every earlier source yielded none. */
  lemma RecipientsFromFirstNonEmptySource(e: Event, site: Site)
    requires MessageSentEffect(e, site).outcome.Notified?
    ensures e.inserted.Post?
    ensures var sender := IntVal(e.inserted.author);
            var r := MessageSentEffect(e, site).outcome.recipients;
            exists k :: 0 <= k < |TierOrder|
              && (forall j :: 0 <= j < k ==> TierIds(TierOrder[j], e, site, sender) == [])
              && (forall x :: x in r <==> x in TierIds(TierOrder[k], e, site, sender))
    ensures NoDuplicates(MessageSentEffect(e, site).outcome.recipients)
  {
    NotifiedRecipients(e, site);
    FirstSourceWins(e, site, IntVal(e.inserted.author));
  }

  /** One push per recipient, in recipient order, all with the same
      notification, and the answers of earlier pushes do not stop later ones. */
  lemma OnePushPerRecipient(e: Event, site: Site)
    requires site.hasPush
    ensures var d := MessageSentEffect(e, site);
            d.outcome.Notified? ==>
            && |d.calls| == |d.outcome.recipients|
            && (forall k :: 0 <= k < |d.calls| ==> d.calls[k].to == Int(d.outcome.recipients[k]))
            && (forall k :: 0 <= k < |d.calls| ==> d.calls[k].data == d.calls[0].data)
            && (forall k :: 0 <= k < |d.calls| ==> d.calls[k].data.kind == NewMessageKind)
  {
  }

  /** Every push of a run carries the notification built from the message
      and its sender. */
  lemma PushedNotification(e: Event, site: Site)
    ensures var d := MessageSentEffect(e, site);
            forall k :: 0 <= k < |d.calls| ==>
              && e.inserted.Post? && IntVal(e.inserted.author) in site.users
              && d.calls[k].data == MessageNotification(e, site, site.users[IntVal(e.inserted.author)])
  {
  }

  /** The body every push carries is the fixed fallback text when the
      content read is empty, and otherwise the trimmed, tag-stripped content;
      the content is the payload's `message_content` when set, and the post
      content otherwise. */
  lemma PreviewFallback(e: Event, site: Site)
    ensures var d := MessageSentEffect(e, site);
            forall k :: 0 <= k < |d.calls| ==>
              && e.inserted.Post?
              && var content := if e.message.content != Null then e.message.content else Str(e.inserted.content);
                 && (!Truthy(content) ==> d.calls[k].data.body == FallbackPreview)
                 && (Truthy(content) ==>
                       d.calls[k].data.body == site.trimWords(site.stripTags(StrVal(content)), PreviewWords))
  {
    PushedNotification(e, site);
  }

  /** A `message_to_id` that is one decimal id string yields that id exactly
      when it is non-zero and not the sender: the emptiness guard and the
      `intval` test agree on decimal ids. */
  lemma DecimalRecipientField(n: int, sender: int)
    ensures Filter(ToIdEntries(Single(Str(Decimal(n)))), sender) == if Keeps(n, sender) then [n] else []
  {
    TruthyDecimal(n);
    IntValOfDecimal(n);
    if n != 0 {
      var raw := [Str(Decimal(n))];
      assert ToIdEntries(Single(Str(Decimal(n)))) == raw;
      assert raw[..0] == [];
    }
  }

  /** The notification a listing handler sends. */
  function ListingNotification(listingId: int, site: Site, title: string, body: string, kind: string): Notification
  {
    Notification(title, body, site.iconUrl, site.iconUrl, kind, EditListing(listingId))
  }

  /** `classiadspro_firebase_listing_expired`. */
  method OnListingExpired(listingId: int, site: Site) returns (calls: seq<PushCall>)
    ensures listingId !in site.posts || !site.hasPush ==> calls == []
    ensures listingId in site.posts && site.hasPush ==>
              |calls| == 1 && calls[0].to == site.posts[listingId].author
              && calls[0].data.kind == ListingExpiredKind && calls[0].data.action == EditListing(listingId)
              && calls[0].data.body == "Your listing \"" + site.posts[listingId].title + "\" has expired"
  {
    calls := [];
    if listingId !in site.posts {
      return;
    }
    var listing := site.posts[listingId];
    var note := ListingNotification(listingId, site, "Listing Expired",
                                    "Your listing \"" + listing.title + "\" has expired", ListingExpiredKind);
    if site.hasPush {
      var delivered := site.push(listing.author, note);
      calls := [PushCall(listing.author, note, delivered)];
    }
  }

  /** `classiadspro_firebase_listing_deactivated`. */
  method OnListingDeactivated(listingId: int, site: Site) returns (calls: seq<PushCall>)
    ensures listingId !in site.posts || !site.hasPush ==> calls == []
    ensures listingId in site.posts && site.hasPush ==>
              |calls| == 1 && calls[0].to == site.posts[listingId].author
              && calls[0].data.kind == ListingDeactivatedKind && calls[0].data.action == EditListing(listingId)
              && calls[0].data.body == "Your listing \"" + site.posts[listingId].title + "\" has been deactivated"
  {
    calls := [];
    if listingId !in site.posts {
      return;
    }
    var listing := site.posts[listingId];
    var note := ListingNotification(listingId, site, "Listing Deactivated",
                                    "Your listing \"" + listing.title + "\" has been deactivated",
                                    ListingDeactivatedKind);
    if site.hasPush {
      var delivered := site.push(listing.author, note);
      calls := [PushCall(listing.author, note, delivered)];
    }
  }
}
