/** Owner mails of app/pipeline/step5_act.py: grouping the matched systems by owner, mailing each owner once,
    and reading the stored tickets back. */
module OwnerMail {
  import opened Records
  import opened Text
  import opened Wrappers

  // ---------- addresses ----------

  const PLACEHOLDER_MAIL := {"soc@example.com", "threat-hunting@example.com"}

  predicate IsMark(c: char) {
    c in {'\U{200b}', '\U{200c}', '\U{200d}', '\U{200e}', '\U{200f}', '\U{2060}', '\U{feff}'}
    || '\U{202a}' <= c <= '\U{202e}' || '\U{2066}' <= c <= '\U{2069}'
  }

  function WithoutMarks(s: string): string {
    if s == "" then ""
    else WithoutMarks(s[..|s| - 1]) + if IsMark(s[|s| - 1]) then "" else [s[|s| - 1]]
  }

  predicate HasBlank(s: string) {
    exists c :: c in s && IsSpace(c)
  }

  /** `clean_email`: empty unless what is left is one word with an at sign and no placeholder. */
  function CleanEmail(value: string): string {
    var email := Strip(WithoutMarks(value));
    if email == "" || Lower(email) in PLACEHOLDER_MAIL || '@' !in email || HasBlank(email) then "" else email
  }

  /** The part after the last at sign. */
  function Host(email: string): string {
    if '@' !in email then email
    else if email[|email| - 1] == '@' then ""
    else Host(email[..|email| - 1]) + [email[|email| - 1]]
  }

  /** `email_domain_allowed`. */
  predicate DomainAllowed(email: string, domains: seq<string>) {
    domains == [] ||
    var cleaned := CleanEmail(email);
    && cleaned != ""
    && exists d :: d in domains && (Lower(Host(cleaned)) == d || EndsWith(Lower(Host(cleaned)), "." + d))
  }

  // ---------- groups ----------

  /** A match link with its asset; `present` is false when the asset row is gone. */
  datatype Match = Match(asset: nat, present: bool, active: bool, ownerEmail: string)

  datatype Group = Group(email: string, assets: seq<nat>)

  function Address(m: Match, fallback: string): string {
    if !m.present || !m.active then ""
    else if CleanEmail(m.ownerEmail) != "" then CleanEmail(m.ownerEmail) else CleanEmail(fallback)
  }

  function Key(g: Group): string {
    Lower(g.email)
  }

  /** The group of the address gets the asset, or a new group is mailed for it. */
  function Added(groups: seq<Group>, email: string, asset: nat): seq<Group> {
    if groups == [] then [Group(email, [asset])]
    else if Key(groups[0]) == Lower(email) then [groups[0].(assets := groups[0].assets + [asset])] + groups[1..]
    else [groups[0]] + Added(groups[1..], email, asset)
  }

  function Groups(matches: seq<Match>, fallback: string): seq<Group> {
    if matches == [] then []
    else
      var front, last := Groups(matches[..|matches| - 1], fallback), matches[|matches| - 1];
      var email := Address(last, fallback);
      if email == "" then front else Added(front, email, last.asset)
  }

  /** The dictionary keeps one group per key, in the order of first use. */
  method MatchedOwnerGroups(matches: seq<Match>, fallback: string) returns (groups: seq<Group>)
    ensures groups == Groups(matches, fallback)
  {
    groups := [];
    for i := 0 to |matches|
      invariant groups == Groups(matches[..i], fallback)
    {
      assert matches[..i + 1][..i] == matches[..i];
      var email := Address(matches[i], fallback);
      if email == "" {
        continue;
      }
      groups := AddToGroup(groups, email, matches[i].asset);
    }
    assert matches[..|matches|] == matches;
  }

  lemma {:induction false} AddedSkips(groups: seq<Group>, email: string, asset: nat, i: nat)
    requires i <= |groups| && forall j | 0 <= j < i :: Key(groups[j]) != Lower(email)
    ensures Added(groups, email, asset) == groups[..i] + Added(groups[i..], email, asset)
  {
    if i == 0 {
      assert groups[0..] == groups && groups[..0] + Added(groups, email, asset) == Added(groups, email, asset);
    } else {
      AddedSkips(groups, email, asset, i - 1);
      var here := groups[i - 1..];
      assert here[0] == groups[i - 1] && here[1..] == groups[i..];
      assert Added(here, email, asset) == [groups[i - 1]] + Added(groups[i..], email, asset);
      Reassociate(groups[..i - 1], groups[i - 1], Added(groups[i..], email, asset));
      assert groups[..i - 1] + [groups[i - 1]] == groups[..i];
    }
  }

  lemma Reassociate<T>(a: seq<T>, x: T, b: seq<T>)
    ensures a + ([x] + b) == (a + [x]) + b
  {
  }

  method AddToGroup(groups: seq<Group>, email: string, asset: nat) returns (r: seq<Group>)
    ensures r == Added(groups, email, asset)
  {
    var i := 0;
    while i < |groups| && Key(groups[i]) != Lower(email)
      invariant 0 <= i <= |groups|
      invariant forall j | 0 <= j < i :: Key(groups[j]) != Lower(email)
    {
      i := i + 1;
    }
    AddedSkips(groups, email, asset, i);
    if i == |groups| {
      return groups + [Group(email, [asset])];
    }
    assert groups[i..][1..] == groups[i + 1..];
    r := groups[..i] + ([groups[i].(assets := groups[i].assets + [asset])] + groups[i + 1..]);
  }

  /** The assets of the matches that are reached at a key. */
  function Members(matches: seq<Match>, fallback: string, key: string): seq<nat> {
    if matches == [] then []
    else
      var last := matches[|matches| - 1];
      Members(matches[..|matches| - 1], fallback, key) +
      if Address(last, fallback) != "" && Lower(Address(last, fallback)) == key then [last.asset] else []
  }

  /** The assets grouped under a key. */
  function AssetsAt(groups: seq<Group>, key: string): seq<nat> {
    if groups == [] then [] else if Key(groups[0]) == key then groups[0].assets else AssetsAt(groups[1..], key)
  }

  ghost predicate DistinctKeys(groups: seq<Group>) {
    forall i, j | 0 <= i < j < |groups| :: Key(groups[i]) != Key(groups[j])
  }

  ghost predicate HasKey(groups: seq<Group>, key: string) {
    exists g :: g in groups && Key(g) == key
  }

  lemma {:induction false} AddedAssets(groups: seq<Group>, email: string, asset: nat, key: string)
    ensures AssetsAt(Added(groups, email, asset), key) == AssetsAt(groups, key) + if Lower(email) == key then [asset] else []
  {
    if groups != [] && Key(groups[0]) != Lower(email) {
      AddedAssets(groups[1..], email, asset, key);
      assert ([groups[0]] + Added(groups[1..], email, asset))[1..] == Added(groups[1..], email, asset);
    } else if groups != [] {
      var changed := groups[0].(assets := groups[0].assets + [asset]);
      assert ([changed] + groups[1..])[1..] == groups[1..];
    } else {
      assert Added(groups, email, asset) == [Group(email, [asset])];
    }
  }

  lemma HasKeyOfCons(g: Group, rest: seq<Group>, key: string)
    ensures HasKey([g] + rest, key) <==> Key(g) == key || HasKey(rest, key)
  {
    if HasKey(rest, key) {
      var f :| f in rest && Key(f) == key;
      assert f in [g] + rest;
    }
    assert ([g] + rest)[0] == g;
  }

  /** Adding keeps one group per key, and every group keeps at least one asset and the address it was mailed for. */
  lemma {:induction false} AddedGroups(groups: seq<Group>, email: string, asset: nat)
    requires DistinctKeys(groups)
    ensures DistinctKeys(Added(groups, email, asset))
    ensures forall key :: HasKey(Added(groups, email, asset), key) <==> HasKey(groups, key) || key == Lower(email)
  {
    if groups == [] {
      var g := Group(email, [asset]);
      assert Added(groups, email, asset) == [g] + groups;
      forall key ensures HasKey([g] + groups, key) <==> HasKey(groups, key) || key == Lower(email) {
        HasKeyOfCons(g, groups, key);
      }
    } else if Key(groups[0]) == Lower(email) {
      AddedToTheFirst(groups, email, asset);
    } else {
      var rest := Added(groups[1..], email, asset);
      AddedGroups(groups[1..], email, asset);
      AddedBehindTheFirst(groups, rest, Lower(email));
    }
  }

  lemma AddedToTheFirst(groups: seq<Group>, email: string, asset: nat)
    requires DistinctKeys(groups) && groups != [] && Key(groups[0]) == Lower(email)
    ensures DistinctKeys(Added(groups, email, asset))
    ensures forall key :: HasKey(Added(groups, email, asset), key) <==> HasKey(groups, key) || key == Lower(email)
  {
    var after := Added(groups, email, asset);
    assert after[0] in after && groups[0] in groups;
    assert forall i | 0 < i < |groups| :: after[i] == groups[i];
    forall key ensures HasKey(after, key) <==> HasKey(groups, key) || key == Lower(email) {
      if HasKey(groups, key) && key != Lower(email) {
        var i :| 0 <= i < |groups| && Key(groups[i]) == key;
        assert after[i] in after;
      }
    }
  }

  lemma AddedBehindTheFirst(groups: seq<Group>, rest: seq<Group>, key: string)
    requires groups != [] && DistinctKeys(groups) && DistinctKeys(rest) && Key(groups[0]) != key
    requires forall k :: HasKey(rest, k) <==> HasKey(groups[1..], k) || k == key
    ensures DistinctKeys([groups[0]] + rest)
    ensures forall k :: HasKey([groups[0]] + rest, k) <==> HasKey(groups, k) || k == key
  {
    assert groups == [groups[0]] + groups[1..];
    forall g | g in rest ensures Key(g) != Key(groups[0]) {
      assert HasKey(rest, Key(g));
      if Key(g) != key {
        var f :| f in groups[1..] && Key(f) == Key(g);
      }
    }
    forall k ensures HasKey([groups[0]] + rest, k) <==> HasKey(groups, k) || k == key {
      HasKeyOfCons(groups[0], rest, k);
      HasKeyOfCons(groups[0], groups[1..], k);
    }
  }

  /** Main result: the groups partition the addressed matches by lower-cased address: one group per key, and the group
      of a key holds exactly the assets reached there, in match order. */
  lemma {:induction false} GroupsPartitionTheMatches(matches: seq<Match>, fallback: string)
    ensures DistinctKeys(Groups(matches, fallback))
    ensures forall key :: AssetsAt(Groups(matches, fallback), key) == Members(matches, fallback, key)
    ensures forall key :: HasKey(Groups(matches, fallback), key) <==> Members(matches, fallback, key) != []
  {
    if matches != [] {
      var front, last := matches[..|matches| - 1], matches[|matches| - 1];
      GroupsPartitionTheMatches(front, fallback);
      var email := Address(last, fallback);
      if email != "" {
        AddedGroups(Groups(front, fallback), email, last.asset);
        forall key ensures AssetsAt(Groups(matches, fallback), key) == Members(matches, fallback, key) {
          AddedAssets(Groups(front, fallback), email, last.asset, key);
        }
      }
    }
  }

  // ---------- clean addresses ----------

  ghost predicate IsClean(email: string) {
    (forall c | c in email :: !IsMark(c) && !IsSpace(c)) && email != "" && CleanEmail(email) == email
  }

  lemma {:induction false} MarksAreGone(s: string)
    ensures forall c :: c in WithoutMarks(s) <==> c in s && !IsMark(c)
  {
    if s != "" {
      MarksAreGone(s[..|s| - 1]);
      assert s == s[..|s| - 1] + [s[|s| - 1]];
    }
  }

  lemma {:induction false} NothingToTakeOut(s: string)
    requires forall i | 0 <= i < |s| :: !IsMark(s[i])
    ensures WithoutMarks(s) == s
  {
    if s != "" {
      NothingToTakeOut(s[..|s| - 1]);
      assert s == s[..|s| - 1] + [s[|s| - 1]];
    }
  }

  lemma {:induction false} StripLeftIsPart(s: string)
    ensures forall c | c in StripLeft(s) :: c in s
  {
    if s != [] && IsSpace(s[0]) {
      StripLeftIsPart(s[1..]);
    }
  }

  lemma {:induction false} StripRightIsPart(s: string)
    ensures forall c | c in StripRight(s) :: c in s
  {
    if s != [] && IsSpace(s[|s| - 1]) {
      StripRightIsPart(s[..|s| - 1]);
    }
  }

  lemma CleanedCharacters(value: string)
    requires CleanEmail(value) != ""
    ensures forall c | c in CleanEmail(value) :: !IsMark(c) && !IsSpace(c)
  {
    var bare := WithoutMarks(value);
    MarksAreGone(value);
    StripLeftIsPart(bare);
    StripRightIsPart(StripLeft(bare));
  }

  lemma StripAfterMarks(email: string)
    requires forall c | c in email :: !IsMark(c) && !IsSpace(c)
    ensures Strip(WithoutMarks(email)) == email
  {
    assert forall i | 0 <= i < |email| :: email[i] in email;
    NothingToTakeOut(email);
    StripIsIdle(email);
  }

  /** Cleaning is idempotent, and a cleaned address holds neither marks nor blanks. */
  lemma CleanedIsClean(value: string)
    requires CleanEmail(value) != ""
    ensures IsClean(CleanEmail(value))
  {
    CleanedCharacters(value);
    StripAfterMarks(CleanEmail(value));
  }

  ghost predicate CleanGroups(groups: seq<Group>) {
    forall i | 0 <= i < |groups| :: IsClean(groups[i].email)
  }

  lemma {:induction false} AddedIsClean(groups: seq<Group>, email: string, asset: nat)
    requires CleanGroups(groups) && IsClean(email)
    ensures CleanGroups(Added(groups, email, asset))
  {
    if groups != [] && Key(groups[0]) != Lower(email) {
      var rest := Added(groups[1..], email, asset);
      AddedIsClean(groups[1..], email, asset);
      assert CleanGroups(rest) && Added(groups, email, asset) == [groups[0]] + rest;
    }
  }

  lemma {:induction false} GroupsAreClean(matches: seq<Match>, fallback: string)
    ensures CleanGroups(Groups(matches, fallback))
  {
    if matches != [] {
      var last := matches[|matches| - 1];
      GroupsAreClean(matches[..|matches| - 1], fallback);
      if Address(last, fallback) != "" {
        if CleanEmail(last.ownerEmail) != "" { CleanedIsClean(last.ownerEmail); } else { CleanedIsClean(fallback); }
        AddedIsClean(Groups(matches[..|matches| - 1], fallback), Address(last, fallback), last.asset);
      }
    }
  }

  // ---------- which address is mailed, on the columns ----------

  /** Main result: what a column says once its marks are gone: a word with blanks around it is an address iff it has an at
      sign and is no placeholder in any capitals, and several words are none. */
  lemma CleanEmailReadsTheWord(value: string, before: string, word: string, after: string)
    requires Blank(before) && OneWord(word) && Blank(after)
    requires WithoutMarks(value) == before + word + after
    ensures CleanEmail(value) == if '@' in word && Lower(word) !in PLACEHOLDER_MAIL then word else ""
  {
    StripFindsTheWord(before, word, after);
    assert forall c | c in word :: !IsSpace(c);
  }

  lemma WordsAreNoAddress(value: string)
    ensures CleanEmail(value) != "" ==> OneWord(CleanEmail(value)) && '@' in CleanEmail(value)
    ensures CleanEmail(value) != "" ==> Lower(CleanEmail(value)) !in PLACEHOLDER_MAIL
  {
    var email := CleanEmail(value);
    assert forall i | 0 <= i < |email| :: email[i] in email;
  }

  /** The asset is mailed for at this key: it is there and active, and its own address, or the fallback when it has none
      that can be used, is the key but for capitals. */
  ghost predicate MailedAt(m: Match, fallback: string, key: string) {
    && m.present && m.active
    && (CleanEmail(m.ownerEmail) != "" ==> Lower(CleanEmail(m.ownerEmail)) == key)
    && (CleanEmail(m.ownerEmail) == "" ==> CleanEmail(fallback) != "" && Lower(CleanEmail(fallback)) == key)
  }

  ghost predicate SomeMatchIsMailed(matches: seq<Match>, fallback: string, key: string, asset: nat) {
    exists i :: 0 <= i < |matches| && matches[i].asset == asset && MailedAt(matches[i], fallback, key)
  }

  lemma AddressIsTheKeyIff(m: Match, fallback: string, key: string)
    ensures Address(m, fallback) != "" && Lower(Address(m, fallback)) == key <==> MailedAt(m, fallback, key)
  {
  }

  lemma OneMoreMatchIsMailed(front: seq<Match>, last: Match, fallback: string, key: string, asset: nat)
    ensures SomeMatchIsMailed(front + [last], fallback, key, asset) <==>
            SomeMatchIsMailed(front, fallback, key, asset) || (last.asset == asset && MailedAt(last, fallback, key))
  {
    var all := front + [last];
    assert all[|front|] == last && forall i | 0 <= i < |front| :: all[i] == front[i];
    if SomeMatchIsMailed(front, fallback, key, asset) {
      var i :| 0 <= i < |front| && front[i].asset == asset && MailedAt(front[i], fallback, key);
      assert all[i].asset == asset && MailedAt(all[i], fallback, key);
    }
  }

  lemma {:induction false} MembersAreMailedAt(matches: seq<Match>, fallback: string, key: string, asset: nat)
    ensures asset in Members(matches, fallback, key) <==> SomeMatchIsMailed(matches, fallback, key, asset)
  {
    if matches != [] {
      var n := |matches| - 1;
      MembersAreMailedAt(matches[..n], fallback, key, asset);
      OneMoreMatchIsMailed(matches[..n], matches[n], fallback, key, asset);
      AddressIsTheKeyIff(matches[n], fallback, key);
      assert matches == matches[..n] + [matches[n]];
    }
  }

  /** Main result: an asset is in the group of a key iff some match of it is there, active, and has the key as its own
      address, whatever the fallback is, or has no usable address while the fallback is the key. No placeholder is ever
      a key. */
  lemma AssetIsMailedAtItsAddress(matches: seq<Match>, fallback: string, key: string, asset: nat)
    ensures asset in AssetsAt(Groups(matches, fallback), key) <==>
            exists i :: 0 <= i < |matches| && matches[i].asset == asset && MailedAt(matches[i], fallback, key)
    ensures key in PLACEHOLDER_MAIL ==> AssetsAt(Groups(matches, fallback), key) == []
  {
    GroupsPartitionTheMatches(matches, fallback);
    MembersAreMailedAt(matches, fallback, key, asset);
    if key in PLACEHOLDER_MAIL && AssetsAt(Groups(matches, fallback), key) != [] {
      var one := Members(matches, fallback, key)[0];
      MembersAreMailedAt(matches, fallback, key, one);
      var i :| 0 <= i < |matches| && matches[i].asset == one && MailedAt(matches[i], fallback, key);
      WordsAreNoAddress(matches[i].ownerEmail);
      WordsAreNoAddress(fallback);
      assert false;
    }
  }

  lemma HostGrows(email: string, c: char)
    requires '@' in email && c != '@'
    ensures Host(email + [c]) == Host(email) + [c]
  {
    var more := email + [c];
    assert more[..|more| - 1] == email && more[|more| - 1] == c;
  }

  lemma {:induction false} HostIsTheRest(local: string, host: string)
    requires '@' !in host
    ensures Host(local + "@" + host) == host
  {
    if host == "" {
      var email := local + "@" + "";
      assert email[|local|] == '@' && |email| == |local| + 1;
    } else {
      var front, last := host[..|host| - 1], host[|host| - 1];
      assert host == front + [last];
      HostIsTheRest(local, front);
      assert (local + "@" + front)[|local|] == '@';
      HostGrows(local + "@" + front, last);
      assert local + "@" + host == local + "@" + front + [last];
    }
  }

  /** A clean address of a host passes an allow-list iff the list is empty, names the host or names a domain above it. */
  lemma AllowListLooksAtTheHost(local: string, host: string, domains: seq<string>)
    requires '@' !in host && IsClean(local + "@" + host)
    ensures DomainAllowed(local + "@" + host, domains) <==>
            domains == [] ||
            exists d :: d in domains && (Lower(host) == d || exists sub: string :: Lower(host) == sub + ("." + d))
  {
    HostIsTheRest(local, host);
    forall d | d in domains {
      EndsWithIff(Lower(host), "." + d);
    }
  }

  // ---------- tickets and their channels ----------

  datatype Kind = Owner | Hunt

  datatype Channel = Email | Monday | Custom | Jira

  datatype Ticket = Ticket(vuln: nat, kind: Kind, key: string, raw: string, assignee: string)

  function ProviderName(c: Channel): string {
    match c
    case Email => "email"
    case Monday => "monday"
    case Custom => "custom"
    case Jira => "jira"
  }

  const QUOTE := "\""

  /** What `_ticket_channel` looks for: the provider in double quotes. */
  function Marker(c: Channel): string {
    QUOTE + "provider" + QUOTE + ": " + QUOTE + ProviderName(c) + QUOTE
  }

  /** `_pack_ticket_raw`, which quotes with single quotes; `inner` is the text of the provider's reply. */
  function PackTicketRaw(c: Channel, inner: string): string {
    ("{'provider': '" + ProviderName(c) + "', 'raw': ") + inner + "}"
  }

  function TicketChannel(key: string, raw: string): Channel {
    if Contains(raw, Marker(Email)) || StartsWith(key, "MAIL-") then Email
    else if Contains(raw, Marker(Monday)) || StartsWith(key, "MON-") then Monday
    else if Contains(raw, Marker(Custom)) then Custom
    else Jira
  }

  lemma MarkerIsInTheReply(c: Channel, d: Channel, inner: string)
    ensures Contains(PackTicketRaw(c, inner), Marker(d)) <==> Contains(inner, Marker(d))
  {
    var before := "{'provider': '" + ProviderName(c) + "', 'raw': ";
    assert '"' !in before by {
      assert '"' !in "{'provider': '" && '"' !in "', 'raw': " && '"' !in ProviderName(c);
    }
    assert Marker(d)[0] == '"' && Marker(d)[|Marker(d)| - 1] == '"';
    QuotedPartIsInside(before, inner, "}", Marker(d));
  }

  /** Main result: a stored ticket is read back by its key and by the reply alone, never by the provider that was packed
      with it: a custom ticket reads back as custom only when its reply happens to quote the custom marker. */
  lemma PackedProviderIsNotRead(c: Channel, d: Channel, key: string, inner: string)
    ensures TicketChannel(key, PackTicketRaw(c, inner)) == TicketChannel(key, PackTicketRaw(d, inner)) == TicketChannel(key, inner)
  {
    MarkerIsInTheReply(c, Email, inner);
    MarkerIsInTheReply(c, Monday, inner);
    MarkerIsInTheReply(c, Custom, inner);
    MarkerIsInTheReply(d, Email, inner);
    MarkerIsInTheReply(d, Monday, inner);
    MarkerIsInTheReply(d, Custom, inner);
  }

  lemma MarkerNeedsAQuote(inner: string, d: Channel)
    ensures Contains(inner, Marker(d)) ==> '"' in inner
  {
    if Contains(inner, Marker(d)) {
      PartBringsItsFirst(inner, Marker(d));
    }
  }

  /** Exactly when a stored ticket reads back as its own provider. */
  lemma ChannelRoundTripsIff(c: Channel, key: string, inner: string)
    ensures var email := Contains(inner, Marker(Email)) || StartsWith(key, "MAIL-");
            var monday := Contains(inner, Marker(Monday)) || StartsWith(key, "MON-");
            var custom := Contains(inner, Marker(Custom));
            TicketChannel(key, PackTicketRaw(c, inner)) == c <==>
            match c
            case Email => email
            case Monday => !email && monday
            case Custom => !email && !monday && custom
            case Jira => !email && !monday && !custom
  {
    PackedProviderIsNotRead(c, c, key, inner);
  }

  /** A custom ticket whose reply has no double quote never reads back as custom. */
  lemma PlainCustomTicketIsLost(key: string, inner: string)
    requires '"' !in inner
    ensures !TicketChannel(key, PackTicketRaw(Custom, inner)).Custom?
  {
    ChannelRoundTripsIff(Custom, key, inner);
    MarkerNeedsAQuote(inner, Custom);
  }

  // ---------- mailing the owners ----------

  const MAIL_KEY := "MAIL-owner"
  const ASSIGNEE_WIDTH := 128

  function Truncated(s: string, width: nat): string {
    if |s| <= width then s else s[..width]
  }

  predicate IsOwnerMail(t: Ticket, vuln: nat) {
    t.vuln == vuln && t.kind.Owner? && TicketChannel(t.key, t.raw).Email?
  }

  function ReadKey(t: Ticket): string {
    Lower(Strip(t.assignee))
  }

  function ExistingAssignees(tickets: seq<Ticket>, vuln: nat): set<string> {
    set t | t in tickets && IsOwnerMail(t, vuln) :: ReadKey(t)
  }

  /** One call's inputs: the match links, the fallback address, the allowed domains, which mails go out and the text of
      the replies. */
  datatype MailRun = MailRun(
    vuln: nat,
    matches: seq<Match>,
    fallback: string,
    domains: seq<string>,
    sends: string -> bool,
    reply: string -> string)

  function MailTicket(r: MailRun, g: Group): Ticket {
    Ticket(r.vuln, Owner, MAIL_KEY, PackTicketRaw(Email, r.reply(g.email)), Truncated(g.email, ASSIGNEE_WIDTH))
  }

  predicate Tried(r: MailRun, existing: set<string>, g: Group) {
    Key(g) !in existing && DomainAllowed(g.email, r.domains)
  }

  /** The tickets of the owners that are mailed: not mailed before, of an allowed domain, and the mail went out. */
  function NewTickets(r: MailRun, existing: set<string>, groups: seq<Group>): seq<Ticket> {
    if groups == [] then []
    else
      var g := groups[|groups| - 1];
      NewTickets(r, existing, groups[..|groups| - 1]) +
      if Tried(r, existing, g) && r.sends(g.email) then [MailTicket(r, g)] else []
  }

  predicate SomeMailFailed(r: MailRun, existing: set<string>, groups: seq<Group>) {
    exists g :: g in groups && Tried(r, existing, g) && !r.sends(g.email)
  }

  function Opened(tickets: seq<Ticket>, r: MailRun): seq<Ticket> {
    NewTickets(r, ExistingAssignees(tickets, r.vuln), Groups(r.matches, r.fallback))
  }

  lemma KeysBefore(groups: seq<Group>, i: nat)
    requires i < |groups| && DistinctKeys(groups)
    ensures Key(groups[i]) !in KeySet(groups[..i])
    ensures KeySet(groups[..i + 1]) == KeySet(groups[..i]) + {Key(groups[i])}
  {
    assert groups[..i + 1] == groups[..i] + [groups[i]];
  }

  function KeySet(groups: seq<Group>): set<string> {
    set g | g in groups :: Key(g)
  }

  /** `_open_email_owner_tasks`: a mail that fails does not stop the others; the call raises when every tried one
      failed. */
  method OpenEmailOwnerTasks(tickets: seq<Ticket>, r: MailRun) returns (mailed: seq<Ticket>, raised: bool)
    ensures mailed == Opened(tickets, r)
    ensures raised <==>
            mailed == [] && SomeMailFailed(r, ExistingAssignees(tickets, r.vuln), Groups(r.matches, r.fallback))
  {
    var groups := MatchedOwnerGroups(r.matches, r.fallback);
    GroupsPartitionTheMatches(r.matches, r.fallback);
    ghost var before := ExistingAssignees(tickets, r.vuln);
    var existing := ExistingAssignees(tickets, r.vuln);
    mailed := [];
    var errors := false;
    for i := 0 to |groups|
      invariant mailed == NewTickets(r, before, groups[..i])
      invariant before <= existing <= before + KeySet(groups[..i])
      invariant errors <==> SomeMailFailed(r, before, groups[..i])
    {
      var g := groups[i];
      KeysBefore(groups, i);
      assert groups[..i + 1][..i] == groups[..i];
      assert forall h :: h in groups[..i + 1] <==> h in groups[..i] || h == g;
      if Lower(g.email) in existing {
        continue;
      }
      if !DomainAllowed(g.email, r.domains) {
        continue;
      }
      if !r.sends(g.email) {
        errors := true;
        continue;
      }
      mailed := mailed + [MailTicket(r, g)];
      existing := existing + {Lower(g.email)};
    }
    assert groups[..|groups|] == groups;
    raised := errors && mailed == [];
  }

  // ---------- any number of runs ----------

  function Total(tickets: seq<Ticket>, vuln: nat, key: string): nat {
    if tickets == [] then 0
    else
      var t := tickets[|tickets| - 1];
      Total(tickets[..|tickets| - 1], vuln, key) + if IsOwnerMail(t, vuln) && ReadKey(t) == key then 1 else 0
  }

  lemma {:induction false} TotalOfBoth(a: seq<Ticket>, b: seq<Ticket>, vuln: nat, key: string)
    ensures Total(a + b, vuln, key) == Total(a, vuln, key) + Total(b, vuln, key)
  {
    if b == [] {
      assert a + b == a;
    } else {
      assert (a + b)[..|a + b| - 1] == a + b[..|b| - 1];
      TotalOfBoth(a, b[..|b| - 1], vuln, key);
    }
  }

  lemma {:induction false} UnknownKeyHasNoTicket(tickets: seq<Ticket>, vuln: nat, key: string)
    requires key !in ExistingAssignees(tickets, vuln)
    ensures Total(tickets, vuln, key) == 0
  {
    if tickets != [] {
      var front, t := tickets[..|tickets| - 1], tickets[|tickets| - 1];
      assert tickets == front + [t];
      UnknownKeyHasNoTicket(front, vuln, key);
    }
  }

  /** How a recorded owner mail is read: as an owner mail, under the first 128 characters of the address. */
  lemma MailTicketIsRead(r: MailRun, g: Group)
    requires IsClean(g.email)
    ensures IsOwnerMail(MailTicket(r, g), r.vuln)
    ensures ReadKey(MailTicket(r, g)) == Truncated(Key(g), ASSIGNEE_WIDTH)
  {
    var assignee := Truncated(g.email, ASSIGNEE_WIDTH);
    assert forall i | 0 <= i < |assignee| :: assignee[i] == g.email[i] && g.email[i] in g.email;
    StripIsIdle(assignee);
    assert StartsWith(MAIL_KEY, "MAIL-");
  }

  /** The address does not fit the assignee column and is read back under this key. */
  predicate IsTwin(g: Group, key: string) {
    |g.email| > ASSIGNEE_WIDTH && Truncated(Key(g), ASSIGNEE_WIDTH) == key
  }

  ghost predicate NoTwin(groups: seq<Group>, key: string) {
    forall i | 0 <= i < |groups| :: !IsTwin(groups[i], key)
  }

  lemma OneTicketTotal(r: MailRun, g: Group, vuln: nat, key: string)
    requires IsClean(g.email) && !IsTwin(g, key)
    ensures Total([MailTicket(r, g)], vuln, key) <= if vuln == r.vuln && Key(g) == key then 1 else 0
  {
    MailTicketIsRead(r, g);
    var t := MailTicket(r, g);
    assert t.vuln == r.vuln && (ReadKey(t) == key ==> Key(g) == key);
    TotalOfOne(t, vuln, key);
  }

  lemma TotalOfOne(t: Ticket, vuln: nat, key: string)
    ensures Total([t], vuln, key) <= if vuln == t.vuln && ReadKey(t) == key then 1 else 0
  {
    assert [t][..0] == [];
  }

  lemma LastKeyIsNew(groups: seq<Group>)
    requires groups != [] && DistinctKeys(groups)
    ensures !HasKey(groups[..|groups| - 1], Key(groups[|groups| - 1]))
    ensures forall key :: HasKey(groups, key) <==>
              HasKey(groups[..|groups| - 1], key) || Key(groups[|groups| - 1]) == key
  {
    var front, g := groups[..|groups| - 1], groups[|groups| - 1];
    assert groups == front + [g];
    forall key ensures HasKey(groups, key) <==> HasKey(front, key) || Key(g) == key {
      if HasKey(front, key) {
        var f :| f in front && Key(f) == key;
        assert f in groups;
      }
      assert g in groups;
    }
  }

  ghost predicate MayBeMailed(r: MailRun, existing: set<string>, groups: seq<Group>, vuln: nat, key: string) {
    vuln == r.vuln && key !in existing && HasKey(groups, key)
  }

  lemma MoreTickets(r: MailRun, existing: set<string>, groups: seq<Group>, more: seq<Ticket>, vuln: nat, key: string)
    requires groups != [] && more == NewTickets(r, existing, groups[..|groups| - 1])
    ensures var t := MailTicket(r, groups[|groups| - 1]);
            Total(NewTickets(r, existing, groups), vuln, key) <=
            Total(more, vuln, key) + if Key(groups[|groups| - 1]) in existing then 0 else Total([t], vuln, key)
  {
    var t := MailTicket(r, groups[|groups| - 1]);
    var after := NewTickets(r, existing, groups);
    assert after == more || (after == more + [t] && Key(groups[|groups| - 1]) !in existing);
    TotalOfBoth(more, [t], vuln, key);
  }

  lemma {:induction false} NewTicketsPerKey(r: MailRun, existing: set<string>, groups: seq<Group>, vuln: nat,
                                            key: string)
    requires CleanGroups(groups) && DistinctKeys(groups) && NoTwin(groups, key)
    ensures Total(NewTickets(r, existing, groups), vuln, key) <= if MayBeMailed(r, existing, groups, vuln, key) then 1 else 0
  {
    if groups != [] {
      var front, g := groups[..|groups| - 1], groups[|groups| - 1];
      var more := NewTickets(r, existing, front);
      NewTicketsPerKey(r, existing, front, vuln, key);
      LastKeyIsNew(groups);
      OneTicketTotal(r, g, vuln, key);
      MoreTickets(r, existing, groups, more, vuln, key);
      var here := if Key(g) in existing then 0 else Total([MailTicket(r, g)], vuln, key);
      assert here == 1 ==> vuln == r.vuln && Key(g) == key;
    }
  }

  /** What changes the tickets of the CVEs: a run that keeps or loses what it recorded, or a ticket of another kind. */
  datatype Act = MailAct(r: MailRun, committed: bool) | OtherTicket(t: Ticket)

  function Step(tickets: seq<Ticket>, a: Act): seq<Ticket> {
    match a
    case MailAct(r, committed) => if committed then tickets + Opened(tickets, r) else tickets
    case OtherTicket(t) => tickets + [t]
  }

  function Mailed(acts: seq<Act>): seq<Ticket> {
    if acts == [] then [] else Step(Mailed(acts[..|acts| - 1]), acts[|acts| - 1])
  }

  /** Other steps record hunts and tickets of other channels, and no address that is too long for the column is read
      back under this key. */
  ghost predicate Ordinary(a: Act, key: string) {
    match a
    case MailAct(r, committed) => NoTwin(Groups(r.matches, r.fallback), key)
    case OtherTicket(t) => !IsOwnerMail(t, t.vuln)
  }

  lemma RunAddsAtMostOne(tickets: seq<Ticket>, r: MailRun, vuln: nat, key: string)
    requires NoTwin(Groups(r.matches, r.fallback), key) && Total(tickets, vuln, key) <= 1
    ensures Total(tickets + Opened(tickets, r), vuln, key) <= 1
  {
    var groups, existing := Groups(r.matches, r.fallback), ExistingAssignees(tickets, r.vuln);
    GroupsAreClean(r.matches, r.fallback);
    GroupsPartitionTheMatches(r.matches, r.fallback);
    NewTicketsPerKey(r, existing, groups, vuln, key);
    TotalOfBoth(tickets, Opened(tickets, r), vuln, key);
    if vuln == r.vuln && key !in existing {
      UnknownKeyHasNoTicket(tickets, vuln, key);
    }
  }

  /** Main result: over any number of runs, with any matches, fallbacks, allow-lists, failing mails and lost sessions,
      each address gets at most one recorded owner mail per CVE, as long as no address too long for the assignee column
      shares its first 128 characters. */
  lemma {:induction false} AtMostOneOwnerMail(acts: seq<Act>, vuln: nat, key: string)
    requires forall i | 0 <= i < |acts| :: Ordinary(acts[i], key)
    ensures Total(Mailed(acts), vuln, key) <= 1
  {
    if acts != [] {
      var front, last := acts[..|acts| - 1], acts[|acts| - 1];
      AtMostOneOwnerMail(front, vuln, key);
      match last
      case MailAct(r, committed) =>
        if committed { RunAddsAtMostOne(Mailed(front), r, vuln, key); }
      case OtherTicket(t) =>
        TotalOfBoth(Mailed(front), [t], vuln, key);
        assert [t][..0] == [];
    }
  }

  /** Every mail a run records goes to an address of the allow-list that no earlier owner mail of the CVE reached. */
  lemma {:induction false} RunMailsOnlyAllowed(r: MailRun, existing: set<string>, groups: seq<Group>)
    ensures forall t :: t in NewTickets(r, existing, groups) <==>
              exists g :: g in groups && Key(g) !in existing && DomainAllowed(g.email, r.domains) && r.sends(g.email)
                          && t == MailTicket(r, g)
  {
    if groups != [] {
      var front, g := groups[..|groups| - 1], groups[|groups| - 1];
      assert groups == front + [g];
      RunMailsOnlyAllowed(r, existing, front);
    }
  }

  /** Exactly when a mailed address is remembered, so that the next run leaves it alone: it fits the assignee column. */
  lemma MailedAddressIsRememberedIff(tickets: seq<Ticket>, r: MailRun, g: Group)
    requires g in Groups(r.matches, r.fallback) && Tried(r, ExistingAssignees(tickets, r.vuln), g) && r.sends(g.email)
    ensures Key(g) in ExistingAssignees(tickets + Opened(tickets, r), r.vuln) <==> |g.email| <= ASSIGNEE_WIDTH
  {
    var groups, existing := Groups(r.matches, r.fallback), ExistingAssignees(tickets, r.vuln);
    GroupsAreClean(r.matches, r.fallback);
    RunMailsOnlyAllowed(r, existing, groups);
    MailTicketIsRead(r, g);
    var after := tickets + Opened(tickets, r);
    if |g.email| <= ASSIGNEE_WIDTH {
      assert MailTicket(r, g) in after;
    } else {
      forall t | t in after && IsOwnerMail(t, r.vuln) ensures ReadKey(t) != Key(g) {
        if t in tickets {
          assert ReadKey(t) in existing;
        } else {
          var f :| f in groups && t == MailTicket(r, f);
          MailTicketIsRead(r, f);
        }
      }
    }
  }

  // ---------- a twin of an address ----------

  lemma PlainAddressIsClean(email: string)
    requires (forall i | 0 <= i < |email| :: !IsMark(email[i]) && !IsSpace(email[i]))
    requires '@' in email && |email| >= ASSIGNEE_WIDTH
    ensures CleanEmail(email) == email
  {
    assert forall c | c in email :: !IsMark(c) && !IsSpace(c);
    StripAfterMarks(email);
  }

  /** One run for two owners, of whom the second has the address of the first and one more character. */
  function TwinRun(a: string, c: char): MailRun {
    MailRun(0, [Match(1, true, true, a), Match(2, true, true, a + [c])], "", [], email => true, email => "")
  }

  lemma TwinGroups(a: string, c: char)
    requires |a| == ASSIGNEE_WIDTH && CleanEmail(a) == a && CleanEmail(a + [c]) == a + [c]
    ensures Groups(TwinRun(a, c).matches, "") == [Group(a, [1]), Group(a + [c], [2])]
  {
    var first, second := Match(1, true, true, a), Match(2, true, true, a + [c]);
    var g, h := Group(a, [1]), Group(a + [c], [2]);
    assert [first, second][..1] == [first] && [first][..0] == [];
    assert Groups([first], "") == [g];
    assert Key(g) != Lower(a + [c]);
    assert [g][1..] == [];
    assert Added([g], a + [c], 2) == [g] + Added([], a + [c], 2) == [g, h];
  }

  lemma TwinTickets(r: MailRun, g: Group, h: Group)
    requires DomainAllowed(g.email, r.domains) && DomainAllowed(h.email, r.domains) && r.sends(g.email) && r.sends(h.email)
    ensures NewTickets(r, {}, [g, h]) == [MailTicket(r, g), MailTicket(r, h)]
  {
    assert [g, h][..1] == [g] && [g][..0] == [];
    assert NewTickets(r, {}, [g]) == [MailTicket(r, g)];
  }

  /** The hypothesis is needed: a too long address that shares the first 128 characters of another owner's address puts a
      second owner mail under that owner's key. */
  lemma TwinBreaksTheLimit(a: string, c: char)
    requires |a| == ASSIGNEE_WIDTH && IsClean(a) && IsClean(a + [c])
    ensures Total(Mailed([MailAct(TwinRun(a, c), true)]), 0, Lower(a)) == 2
  {
    var r, g, h := TwinRun(a, c), Group(a, [1]), Group(a + [c], [2]);
    TwinGroups(a, c);
    TwinTickets(r, g, h);
    assert ExistingAssignees([], 0) == {};
    MailTicketIsRead(r, g);
    MailTicketIsRead(r, h);
    assert Truncated(Key(h), ASSIGNEE_WIDTH) == Lower(a);
    var tickets := [MailTicket(r, g)] + [MailTicket(r, h)];
    assert Opened([], r) == tickets;
    assert Mailed([MailAct(r, true)]) == [] + tickets by {
      assert [MailAct(r, true)][..0] == [];
    }
    assert [] + tickets == tickets;
    TotalOfBoth([MailTicket(r, g)], [MailTicket(r, h)], 0, Lower(a));
    TotalIsOne(MailTicket(r, g), 0, Lower(a));
    TotalIsOne(MailTicket(r, h), 0, Lower(a));
  }

  lemma TotalIsOne(t: Ticket, vuln: nat, key: string)
    requires IsOwnerMail(t, vuln) && ReadKey(t) == key
    ensures Total([t], vuln, key) == 1
  {
    assert [t][..0] == [];
  }

  const LONG_NAME: string := seq(ASSIGNEE_WIDTH - 5, i => 'a')

  /** Such addresses exist. */
  lemma TwinsExist()
    ensures exists a: string, c: char :: |a| == ASSIGNEE_WIDTH && IsClean(a) && IsClean(a + [c])
  {
    var a := LONG_NAME + "@b.co";
    var b := a + ['m'];
    assert a[ASSIGNEE_WIDTH - 5] == '@' && b[ASSIGNEE_WIDTH - 5] == '@';
    PlainAddressIsClean(a);
    PlainAddressIsClean(b);
    CleanedIsClean(a);
    CleanedIsClean(b);
  }
}
