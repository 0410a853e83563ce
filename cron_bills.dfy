/**
 * The daily bill cron route: for the House and Senate bills of the 119th
 * Congress that have advanced past introduction, tally sponsor and cosponsor
 * parties, save the bipartisan (or enacted) ones by their natural key, then
 * let the bill matcher link the saved bills to existing topic slugs.
 */
module CronBills {
  import opened Wrappers
  import opened Text
  import opened Seqs
  import opened Claude
  import opened Db
  import opened Congress
  import BillMatcher

  const CongressNumber := "119"
  const BillTypes: seq<string> := ["hr", "s"]
  /** `hoursSinceUpdate < 24`, in milliseconds. */
  const FreshWindow: int := 24 * 60 * 60 * 1000

  // ------------------------------------------------------------------- auth

  /** The secret must be set (and non-empty) and the header must be exactly "Bearer <secret>". */
  predicate Authorized(header: Option<string>, secret: Option<string>)
  {
    secret.Some? && secret.value != "" && header == Some("Bearer " + secret.value)
  }

  /** Without a secret no header gets in, not even "Bearer undefined" or "Bearer ". */
  lemma UnsetSecretRejectsAll(header: Option<string>)
    ensures !Authorized(header, None) && !Authorized(header, Some(""))
  {
  }

  // ----------------------------------------------------------------- inputs

  /** An entry of `fetchRecentBills`. */
  datatype ListedBill = ListedBill(number: nat, latestActionText: Option<string>)

  datatype Sponsor = Sponsor(fullName: string, party: string, state: string)

  datatype Detail = Detail(title: string, sponsors: seq<Sponsor>, policyArea: Option<string>,
                           latestActionText: Option<string>, latestActionDate: Option<string>)

  datatype Subjects = Subjects(legislativeSubjects: seq<string>, policyArea: Option<string>)

  /** The answers of the three detail fetches; the cosponsors are given by their parties. */
  datatype BillFacts = BillFacts(detail: Detail, cosponsorParties: seq<string>, subjects: Subjects)

  /**
   * The network and the clock: the bill list per type (`None` when the fetch
   * throws), the three detail fetches per (type, number) (`None` when any of
   * them throws) and `Date.now()`.
   */
  datatype Env = Env(listing: string -> Option<seq<ListedBill>>, fetch: (string, string) -> Option<BillFacts>,
                     now: int)

  /** `x || null` on an optional string: "" is falsy. */
  function OrNull(s: Option<string>): (r: Option<string>)
    ensures r.Some? <==> s.Some? && s.value != ""
    ensures r.Some? ==> r == s
  {
    if s.Some? && s.value != "" then s else None
  }

  predicate IsAdvancedListed(b: ListedBill)
  {
    IsAdvancedBill(OrNull(b.latestActionText))
  }

  // ------------------------------------------------------------ party tally

  datatype Tally = Tally(r: nat, d: nat, i: nat)

  /** How many entries of `parties` are exactly `party`. */
  function CountOf(parties: seq<string>, party: string): (n: nat)
    ensures n <= |parties|
  {
    if parties == [] then 0
    else CountOf(parties[..|parties| - 1], party) + (if parties[|parties| - 1] == party then 1 else 0)
  }

  /** `partyCounts[party]++` for the three tracked parties; any other party is ignored. */
  function Counted(t: Tally, party: string): Tally
  {
    if party == "R" then t.(r := t.r + 1)
    else if party == "D" then t.(d := t.d + 1)
    else if party == "I" then t.(i := t.i + 1)
    else t
  }

  function FirstSponsor(d: Detail): Option<Sponsor>
  {
    if |d.sponsors| > 0 then Some(d.sponsors[0]) else None
  }

  /** The counts the route computes: the cosponsors of each tracked party, plus the first sponsor. */
  function PartyTally(parties: seq<string>, sponsor: Option<Sponsor>): Tally
  {
    var t := Tally(CountOf(parties, "R"), CountOf(parties, "D"), CountOf(parties, "I"));
    if sponsor.Some? && sponsor.value.party != "" then Counted(t, sponsor.value.party) else t
  }

  lemma {:induction false} ThreePartiesAtMostAll(parties: seq<string>)
    ensures CountOf(parties, "R") + CountOf(parties, "D") + CountOf(parties, "I") <= |parties|
  {
    if parties != [] {
      ThreePartiesAtMostAll(parties[..|parties| - 1]);
    }
  }

  /**
   * Each tally is the cosponsors of that party plus one when the sponsor
   * belongs to it; cosponsors of other parties count nowhere, so the three
   * tallies add up to at most the cosponsors plus the sponsor.
   */
  lemma TallyCountsSponsorOnce(parties: seq<string>, sponsor: Option<Sponsor>)
    ensures var t := PartyTally(parties, sponsor);
            var isP := (p: string) => if sponsor.Some? && sponsor.value.party == p then 1 else 0;
            t.r == CountOf(parties, "R") + isP("R") && t.d == CountOf(parties, "D") + isP("D") &&
            t.i == CountOf(parties, "I") + isP("I") &&
            t.r + t.d + t.i <= |parties| + (if sponsor.Some? then 1 else 0)
  {
    ThreePartiesAtMostAll(parties);
  }

  /** The tally loops: cosponsors first, then the sponsor. */
  method CountParties(parties: seq<string>, sponsor: Option<Sponsor>) returns (t: Tally)
    ensures t == PartyTally(parties, sponsor)
  {
    t := Tally(0, 0, 0);
    for k := 0 to |parties|
      invariant t == Tally(CountOf(parties[..k], "R"), CountOf(parties[..k], "D"), CountOf(parties[..k], "I"))
    {
      assert parties[..k + 1][..k] == parties[..k];
      t := Counted(t, parties[k]);
    }
    assert parties[..|parties|] == parties;
    if sponsor.Some? && sponsor.value.party != "" {
      t := Counted(t, sponsor.value.party);
    }
  }

  // ------------------------------------------------------------ the record

  /** The congress.gov path segment of a bill type. */
  function Segment(billType: string): (r: string)
    ensures billType == "hr" ==> r == "house-bill"
    ensures billType == "s" ==> r == "senate-bill"
    ensures billType != "hr" && billType != "s" ==> r == billType
  {
    if billType == "hr" then "house-bill" else if billType == "s" then "senate-bill" else billType
  }

  /** The bill's congress.gov page: the 119th Congress, the chamber's segment, then the number. */
  function CongressGovUrl(billType: string, number: string): (r: string)
    ensures StartsWith(r, "https://www.congress.gov/bill/119th-congress/")
    ensures OccursAt(r, Segment(billType) + "/" + number, |"https://www.congress.gov/bill/119th-congress/"|)
    ensures |r| == |"https://www.congress.gov/bill/119th-congress/"| + |Segment(billType)| + 1 + |number|
  {
    var head := "https://www.congress.gov/bill/" + CongressNumber + "th-congress/";
    assert head == "https://www.congress.gov/bill/119th-congress/";
    OccursAtEnd(head, Segment(billType) + "/" + number);
    assert head + Segment(billType) + "/" + number == head + (Segment(billType) + "/" + number);
    head + Segment(billType) + "/" + number
  }

  /** `subjects.policyArea?.name || detail.policyArea?.name || null`. */
  function PolicyAreaOf(f: BillFacts): (r: Option<string>)
    ensures OrNull(f.subjects.policyArea).Some? ==> r == f.subjects.policyArea
    ensures OrNull(f.subjects.policyArea).None? ==> r == OrNull(f.detail.policyArea)
  {
    var fromSubjects := OrNull(f.subjects.policyArea);
    if fromSubjects.Some? then fromSubjects else OrNull(f.detail.policyArea)
  }

  function SponsorField(sponsor: Option<Sponsor>, field: Sponsor -> string): Option<string>
  {
    if sponsor.Some? then OrNull(Some(field(sponsor.value))) else None
  }

  /** `billData`: the columns written for a bill, stamped `now`. */
  function BillRecord(billType: string, number: string, f: BillFacts, now: int): BillData
  {
    var sponsor := FirstSponsor(f.detail);
    var t := PartyTally(f.cosponsorParties, sponsor);
    BillData(CongressNumber, billType, number, f.detail.title, PolicyAreaOf(f), f.subjects.legislativeSubjects,
             SponsorField(sponsor, (s: Sponsor) => s.fullName), SponsorField(sponsor, (s: Sponsor) => s.party),
             SponsorField(sponsor, (s: Sponsor) => s.state),
             NatToString(t.r), NatToString(t.d), NatToString(t.i), NatToString(|f.cosponsorParties|),
             BipartisanScore(t.r, t.d), StatusName(DeriveBillStatus(OrNull(f.detail.latestActionText))),
             OrNull(f.detail.latestActionText), OrNull(f.detail.latestActionDate),
             CongressGovUrl(billType, number), now)
  }

  /** A bill is kept when someone from each side signed on, or when it was enacted. */
  predicate Worth(data: BillData): (r: bool)
    ensures data.status == "enacted" ==> r
    ensures data.status != "enacted" ==> (r <==> data.bipartisanScore != 0.0)
  {
    data.bipartisanScore != 0.0 || data.status == "enacted"
  }

  /** With no Republican (or no Democratic) signer, only an enacted bill is kept. */
  lemma OneSidedBillNeedsEnactment(billType: string, number: string, f: BillFacts, now: int)
    requires var t := PartyTally(f.cosponsorParties, FirstSponsor(f.detail)); t.r == 0 || t.d == 0
    ensures Worth(BillRecord(billType, number, f, now)) <==>
            DeriveBillStatus(OrNull(f.detail.latestActionText)) == Enacted
  {
    var t := PartyTally(f.cosponsorParties, FirstSponsor(f.detail));
    var data := BillRecord(billType, number, f, now);
    assert data.bipartisanScore == BipartisanScore(t.r, t.d) == 0.0;
    EnactedName(DeriveBillStatus(OrNull(f.detail.latestActionText)));
  }

  // ------------------------------------------------------------- bill keys

  function BillKey(billType: string, number: string): string
  {
    billType + "-" + number
  }

  /** `const [type, num] = billKey.split("-")`; `num` is missing when there is no '-'. */
  function SplitKey(key: string): (r: (string, Option<string>))
    ensures '-' !in r.0 && r.0 <= key
    ensures r.1.Some? <==> '-' in key
    ensures r.1.Some? ==> '-' !in r.1.value && r.0 + "-" + r.1.value <= key
  {
    if '-' in key then
      BeforeAfterSplit(key, '-');
      var t, rest := Before(key, '-'), After(key, '-');
      var num := Before(rest, '-');
      assert key == t + "-" + rest;
      assert (t + "-" + num) == key[..|t| + 1 + |num|];
      (t, Some(num))
    else (Before(key, '-'), None)
  }

  /** The keys the route builds split back into their type and number. */
  lemma BillKeyRoundTrip(billType: string, n: nat)
    requires billType in BillTypes
    ensures SplitKey(BillKey(billType, NatToString(n))) == (billType, Some(NatToString(n)))
  {
    var num := NatToString(n);
    assert '-' !in billType;
    assert '-' !in num;
    assert BillKey(billType, num) == billType + ['-'] + num;
    BeforeJoined(billType, '-', num);
    BeforeWithout(num, '-');
  }

  /** A key with a second '-' loses the part after it, as `split` does. */
  lemma SplitDropsThirdPart()
    ensures SplitKey("hr-12-b") == ("hr", Some("12"))
  {
    BeforeJoined("hr", '-', "12-b");
    assert "hr-12-b" == "hr" + ['-'] + "12-b";
    BeforeJoined("12", '-', "b");
    assert "12-b" == "12" + ['-'] + "b";
  }

  // ------------------------------------------------------------- the loops

  predicate HasKey(row: BillRow, billType: string, number: string)
  {
    row.data.congress == CongressNumber && row.data.billType == billType && row.data.billNumber == number
  }

  /** The id of the stored row for (119, type, number), if any. */
  ghost function Existing(bills: map<nat, BillRow>, billType: string, number: string): (r: Option<nat>)
    ensures r.Some? ==> r.value in bills && HasKey(bills[r.value], billType, number)
    ensures r.None? <==> forall id :: id in bills ==> !HasKey(bills[id], billType, number)
  {
    if exists id :: id in bills && HasKey(bills[id], billType, number) then
      Some(var id :| id in bills && HasKey(bills[id], billType, number); id)
    else None
  }

  /** What the bill loops have done so far. */
  datatype Progress = Progress(bills: map<nat, BillRow>, nextBillId: nat, evaluated: nat, saved: nat,
                               newKeys: seq<BillMatcher.BillInfo>)

  /**
   * One advanced bill: it is evaluated; a row updated less than a day ago is
   * left alone; a failed fetch is logged; a one-sided bill that was not
   * enacted is dropped; anything else updates its row or inserts one, is
   * counted as saved and is queued for matching.
   */
  ghost function Evaluate(p: Progress, billType: string, bill: ListedBill, env: Env): Progress
  {
    var number := NatToString(bill.number);
    var seen := p.(evaluated := p.evaluated + 1);
    var existing := Existing(p.bills, billType, number);
    if existing.Some? && env.now - p.bills[existing.value].data.updatedAt < FreshWindow then seen
    else
      match env.fetch(billType, number)
      case None => seen
      case Some(f) => Kept(p, billType, number, f, existing, env.now)
  }

  /** The end of one bill's evaluation once its facts are fetched: upsert it when it is worth keeping. */
  ghost function Kept(p: Progress, billType: string, number: string, f: BillFacts, existing: Option<nat>,
                      now: int): Progress
  {
    var data := BillRecord(billType, number, f, now);
    if !Worth(data) then p.(evaluated := p.evaluated + 1)
    else
      var info := BillMatcher.BillInfo(BillKey(billType, number), f.detail.title, data.policyArea,
                                       data.legislativeSubjects);
      var id := if existing.Some? then existing.value else p.nextBillId;
      Progress(p.bills[id := BillRow(id, data)], if existing.Some? then p.nextBillId else p.nextBillId + 1,
               p.evaluated + 1, p.saved + 1, p.newKeys + [info])
  }

  ghost function EvaluateAll(p: Progress, billType: string, bills: seq<ListedBill>, env: Env): Progress
  {
    if bills == [] then p
    else Evaluate(EvaluateAll(p, billType, bills[..|bills| - 1], env), billType, bills[|bills| - 1], env)
  }

  datatype Harvest = Harvest(progress: Progress, failed: bool)

  /** The loop over bill types; a failed bill list ends the route with a 500, other writes kept. */
  ghost function HarvestAll(p: Progress, types: seq<string>, env: Env): Harvest
  {
    if types == [] then Harvest(p, false)
    else
      var h := HarvestAll(p, types[..|types| - 1], env);
      var t := types[|types| - 1];
      if h.failed then h
      else
        match env.listing(t)
        case None => Harvest(h.progress, true)
        case Some(list) => Harvest(EvaluateAll(h.progress, t, Filter(list, IsAdvancedListed), env), false)
  }

  // ------------------------------------------------------ loop invariants

  /** The counters of a run: nothing is saved without being evaluated, and each save queues one key. */
  ghost predicate Counts(p: Progress)
  {
    p.saved <= p.evaluated && p.saved == |p.newKeys|
  }

  lemma UpsertKeeps(bills: map<nat, BillRow>, nextBillId: nat, existing: Option<nat>, data: BillData,
                    billType: string, number: string)
    requires BillsValid(bills, nextBillId)
    requires existing == Existing(bills, billType, number)
    requires data.congress == CongressNumber && data.billType == billType && data.billNumber == number
    ensures var id := if existing.Some? then existing.value else nextBillId;
            BillsValid(bills[id := BillRow(id, data)], if existing.Some? then nextBillId else nextBillId + 1)
  {
    var id := if existing.Some? then existing.value else nextBillId;
    var m := bills[id := BillRow(id, data)];
    forall a | a in m && SameBill(m[a].data, data) ensures a == id {
      if existing.Some? && a in bills {
        assert SameBill(bills[a].data, bills[existing.value].data);
      }
    }
  }

  /**
   * One bill keeps the table valid (one row per natural key) and the counters
   * consistent, and it is saved exactly when it is neither fresh, nor failed, nor dropped.
   */
  lemma EvaluateKeeps(p: Progress, billType: string, bill: ListedBill, env: Env)
    requires BillsValid(p.bills, p.nextBillId) && Counts(p)
    ensures var q := Evaluate(p, billType, bill, env);
            BillsValid(q.bills, q.nextBillId) && Counts(q) && q.evaluated == p.evaluated + 1 &&
            (q.saved == p.saved ==> q.bills == p.bills && q.nextBillId == p.nextBillId)
  {
    var number := NatToString(bill.number);
    var existing := Existing(p.bills, billType, number);
    if !(existing.Some? && env.now - p.bills[existing.value].data.updatedAt < FreshWindow) &&
       env.fetch(billType, number).Some? {
      var data := BillRecord(billType, number, env.fetch(billType, number).value, env.now);
      UpsertKeeps(p.bills, p.nextBillId, existing, data, billType, number);
    }
  }

  /** A stored bill updated less than 24 hours ago is not saved again. */
  lemma FreshBillSkipped(p: Progress, billType: string, bill: ListedBill, env: Env)
    requires var e := Existing(p.bills, billType, NatToString(bill.number));
             e.Some? && env.now - p.bills[e.value].data.updatedAt < FreshWindow
    ensures Evaluate(p, billType, bill, env) == p.(evaluated := p.evaluated + 1)
  {
  }

  /** A saved bill updates the row of its natural key, or inserts a row when there is none. */
  lemma SaveIsUpsert(p: Progress, billType: string, bill: ListedBill, env: Env)
    requires Evaluate(p, billType, bill, env).saved == p.saved + 1
    ensures var number := NatToString(bill.number);
            var e := Existing(p.bills, billType, number);
            var q := Evaluate(p, billType, bill, env);
            env.fetch(billType, number).Some? &&
            var data := BillRecord(billType, number, env.fetch(billType, number).value, env.now);
            Worth(data) &&
            q.bills == (if e.Some? then p.bills[e.value := BillRow(e.value, data)]
                        else p.bills[p.nextBillId := BillRow(p.nextBillId, data)]) &&
            q.newKeys == p.newKeys + [BillMatcher.BillInfo(BillKey(billType, number), data.title, data.policyArea,
                                                           data.legislativeSubjects)]
  {
  }

  lemma {:induction false} EvaluateAllKeeps(p: Progress, billType: string, bills: seq<ListedBill>, env: Env)
    requires BillsValid(p.bills, p.nextBillId) && Counts(p)
    ensures var q := EvaluateAll(p, billType, bills, env);
            BillsValid(q.bills, q.nextBillId) && Counts(q) && q.evaluated == p.evaluated + |bills|
  {
    if bills != [] {
      var n := |bills| - 1;
      EvaluateAllKeeps(p, billType, bills[..n], env);
      EvaluateKeeps(EvaluateAll(p, billType, bills[..n], env), billType, bills[n], env);
    }
  }

  lemma {:induction false} HarvestKeeps(p: Progress, types: seq<string>, env: Env)
    requires BillsValid(p.bills, p.nextBillId) && Counts(p)
    ensures var q := HarvestAll(p, types, env).progress;
            BillsValid(q.bills, q.nextBillId) && Counts(q)
  {
    if types != [] {
      var n := |types| - 1;
      HarvestKeeps(p, types[..n], env);
      var h := HarvestAll(p, types[..n], env);
      if !h.failed && env.listing(types[n]).Some? {
        EvaluateAllKeeps(h.progress, types[n], Filter(env.listing(types[n]).value, IsAdvancedListed), env);
      }
    }
  }

  // ------------------------------------------------------------- the links

  /** `insert ... onConflictDoNothing` for each slug in turn. */
  function InsertLinks(links: map<(nat, string), string>, billId: nat, slugs: seq<string>,
                       confidence: string): (r: map<(nat, string), string>)
  {
    if slugs == [] then links
    else
      var before := InsertLinks(links, billId, slugs[..|slugs| - 1], confidence);
      var key := (billId, slugs[|slugs| - 1]);
      if key in before then before else before[key := confidence]
  }

  /**
   * Existing links keep their confidence; afterwards there is a link from the
   * bill to every slug; and nothing else is added.
   */
  lemma {:induction false} InsertLinksKeeps(links: map<(nat, string), string>, billId: nat, slugs: seq<string>,
                                            confidence: string)
    ensures var r := InsertLinks(links, billId, slugs, confidence);
            (forall k :: k in links ==> k in r && r[k] == links[k]) &&
            (forall i :: 0 <= i < |slugs| ==> (billId, slugs[i]) in r) &&
            (forall k :: k in r && k !in links ==> k.0 == billId && k.1 in slugs && r[k] == confidence)
  {
    if slugs != [] {
      var n := |slugs| - 1;
      InsertLinksKeeps(links, billId, slugs[..n], confidence);
      var before := InsertLinks(links, billId, slugs[..n], confidence);
      forall i | 0 <= i < |slugs| ensures (billId, slugs[i]) in InsertLinks(links, billId, slugs, confidence) {
        if i < n {
          assert slugs[..n][i] == slugs[i];
        }
      }
      forall k | k in InsertLinks(links, billId, slugs, confidence) && k !in links
        ensures k.0 == billId && k.1 in slugs && InsertLinks(links, billId, slugs, confidence)[k] == confidence
      {
        if k in before {
          assert k.1 in slugs[..n];
        }
      }
    }
  }

  datatype Linked = Linked(links: map<(nat, string), string>, created: nat)

  /** The bill a match names, if its key splits into a type and a number of a stored bill. */
  ghost function MatchedBill(bills: map<nat, BillRow>, key: string): Option<nat>
  {
    var (t, num) := SplitKey(key);
    if num.Some? then Existing(bills, t, num.value) else None
  }

  /** The matching loop; every insert attempt is counted, duplicates included. */
  ghost function LinkAll(links: map<(nat, string), string>, bills: map<nat, BillRow>,
                         matches: seq<BillMatcher.BillMatch>): Linked
  {
    if matches == [] then Linked(links, 0)
    else
      var before := LinkAll(links, bills, matches[..|matches| - 1]);
      var m := matches[|matches| - 1];
      match MatchedBill(bills, m.billKey)
      case None => before
      case Some(id) =>
        Linked(InsertLinks(before.links, id, m.topicSlugs, m.confidence), before.created + |m.topicSlugs|)
  }

  /**
   * `topicLinksCreated` does not depend on which links already exist: it is
   * the number of slugs of the matches whose bill was found.
   */
  lemma {:induction false} LinkCountIgnoresExisting(a: map<(nat, string), string>, b: map<(nat, string), string>,
                                                    bills: map<nat, BillRow>, matches: seq<BillMatcher.BillMatch>)
    ensures LinkAll(a, bills, matches).created == LinkAll(b, bills, matches).created
  {
    if matches != [] {
      LinkCountIgnoresExisting(a, b, bills, matches[..|matches| - 1]);
    }
  }

  /** Re-sending a link that exists changes nothing in the table but is still counted. */
  lemma DuplicateLinkCounted(links: map<(nat, string), string>, bills: map<nat, BillRow>,
                             m: BillMatcher.BillMatch, slug: string)
    requires MatchedBill(bills, m.billKey).Some? && m.topicSlugs == [slug]
    requires (MatchedBill(bills, m.billKey).value, slug) in links
    ensures LinkAll(links, bills, [m]) == Linked(links, 1)
  {
    assert [m][..0] == [];
    assert InsertLinks(links, MatchedBill(bills, m.billKey).value, [slug], m.confidence) == links by {
      assert [slug][..0] == [];
    }
  }

  // ---------------------------------------------------------------- route

  /** The route's JSON replies. */
  datatype BillsReply =
    | Unauthorized                                                // 401
    | Complete(evaluated: nat, saved: nat, linksCreated: nat)
    | Failed                                                      // a bill list fetch threw: 500

  datatype BillsRun = BillsRun(reply: BillsReply, bills: map<nat, BillRow>, nextBillId: nat,
                               links: map<(nat, string), string>, calls: seq<Call>)

  /**
   * What an authorised run does, given the tables, the network, the brief
   * slugs the distinct query returns and the backend oracle.
   */
  ghost function BillsSpec(bills: map<nat, BillRow>, nextBillId: nat, links: map<(nat, string), string>,
                           env: Env, slugs: seq<string>, respond: Responder,
                           parse: string -> Option<BillMatcher.BillMatchResult>): BillsRun
  {
    var h := HarvestAll(Progress(bills, nextBillId, 0, 0, []), BillTypes, env);
    var q := h.progress;
    if h.failed then BillsRun(Failed, q.bills, q.nextBillId, links, [])
    else MatchStage(q, links, slugs, respond, parse)
  }

  /** The run after a complete harvest `q`: the matcher is consulted only for new bills and known slugs. */
  ghost function MatchStage(q: Progress, links: map<(nat, string), string>, slugs: seq<string>,
                            respond: Responder, parse: string -> Option<BillMatcher.BillMatchResult>): BillsRun
  {
    if q.newKeys == [] || slugs == [] then
      BillsRun(Complete(q.evaluated, q.saved, 0), q.bills, q.nextBillId, links, [])
    else
      var calls := [Call(MatcherRole, BillMatcher.Prompt(q.newKeys, slugs))];
      match BillMatcher.Run(q.newKeys, slugs, respond, parse)
      case Threw => BillsRun(Complete(q.evaluated, q.saved, 0), q.bills, q.nextBillId, links, calls)
      case Ok(result) =>
        var linked := LinkAll(links, q.bills, result.matches);
        BillsRun(Complete(q.evaluated, q.saved, linked.created), q.bills, q.nextBillId, linked.links, calls)
  }

  /** In every reply `billsSaved <= billsEvaluated`, and the table keeps one row per natural key. */
  lemma RunCountersConsistent(bills: map<nat, BillRow>, nextBillId: nat, links: map<(nat, string), string>,
                              env: Env, slugs: seq<string>, respond: Responder,
                              parse: string -> Option<BillMatcher.BillMatchResult>)
    requires BillsValid(bills, nextBillId)
    ensures var run := BillsSpec(bills, nextBillId, links, env, slugs, respond, parse);
            BillsValid(run.bills, run.nextBillId) &&
            (run.reply.Complete? ==> run.reply.saved <= run.reply.evaluated) &&
            (run.reply.Complete? ==>
               run.reply.saved == |HarvestAll(Progress(bills, nextBillId, 0, 0, []), BillTypes, env).progress.newKeys|)
  {
    HarvestKeeps(Progress(bills, nextBillId, 0, 0, []), BillTypes, env);
    RunKeepsHarvest(bills, nextBillId, links, env, slugs, respond, parse);
  }

  /** After the harvest, the matching step changes neither the bills nor the harvest's counters. */
  lemma RunKeepsHarvest(bills: map<nat, BillRow>, nextBillId: nat, links: map<(nat, string), string>,
                        env: Env, slugs: seq<string>, respond: Responder,
                        parse: string -> Option<BillMatcher.BillMatchResult>)
    ensures var run := BillsSpec(bills, nextBillId, links, env, slugs, respond, parse);
            var q := HarvestAll(Progress(bills, nextBillId, 0, 0, []), BillTypes, env).progress;
            run.bills == q.bills && run.nextBillId == q.nextBillId &&
            (run.reply.Complete? ==> run.reply.saved == q.saved && run.reply.evaluated == q.evaluated)
  {
    var h := HarvestAll(Progress(bills, nextBillId, 0, 0, []), BillTypes, env);
    var q := h.progress;
    if !h.failed && q.newKeys != [] && slugs != [] {
      var run := BillsSpec(bills, nextBillId, links, env, slugs, respond, parse);
      match BillMatcher.Run(q.newKeys, slugs, respond, parse)
      case Threw =>
        assert run.reply == Complete(q.evaluated, q.saved, 0);
      case Ok(result) =>
        assert run.reply == Complete(q.evaluated, q.saved, LinkAll(links, q.bills, result.matches).created);
    }
  }

  // -------------------------------------------------------------- methods

  /** The body of the inner bill loop. */
  method EvaluateBill(store: BillStore, billType: string, bill: ListedBill, env: Env,
                      evaluated: nat, saved: nat, newKeys: seq<BillMatcher.BillInfo>)
    returns (evaluated': nat, saved': nat, newKeys': seq<BillMatcher.BillInfo>)
    requires store.Valid()
    modifies store
    ensures store.Valid()
    ensures Progress(store.bills, store.nextBillId, evaluated', saved', newKeys') ==
            Evaluate(Progress(old(store.bills), old(store.nextBillId), evaluated, saved, newKeys), billType, bill, env)
    ensures store.links == old(store.links)
  {
    ghost var p := Progress(store.bills, store.nextBillId, evaluated, saved, newKeys);
    evaluated', saved', newKeys' := evaluated + 1, saved, newKeys;
    var number := NatToString(bill.number);
    var existing := store.FindBill(CongressNumber, billType, number);
    ghost var e := Existing(store.bills, billType, number);
    assert existing.Some? ==> e == Some(existing.value.id) by {
      if existing.Some? {
        assert SameBill(store.bills[e.value].data, store.bills[existing.value.id].data);
      }
    }
    if existing.Some? && env.now - existing.value.data.updatedAt < FreshWindow {
      return;
    }
    var facts := env.fetch(billType, number);
    if facts.None? {
      return;
    }
    evaluated', saved', newKeys' := KeepIfWorth(store, billType, number, facts.value, existing, env.now,
                                                evaluated, saved, newKeys);
  }

  /** Scores the fetched bill and upserts it unless it is one-sided and not enacted. */
  method KeepIfWorth(store: BillStore, billType: string, number: string, f: BillFacts, existing: Option<BillRow>,
                     now: int, evaluated: nat, saved: nat, newKeys: seq<BillMatcher.BillInfo>)
    returns (evaluated': nat, saved': nat, newKeys': seq<BillMatcher.BillInfo>)
    requires store.Valid()
    requires existing.None? ==> forall id :: id in store.bills ==> !HasKey(store.bills[id], billType, number)
    requires existing.Some? ==> existing.value.id in store.bills && HasKey(store.bills[existing.value.id], billType, number)
    modifies store
    ensures store.Valid()
    ensures Progress(store.bills, store.nextBillId, evaluated', saved', newKeys') ==
            Kept(Progress(old(store.bills), old(store.nextBillId), evaluated, saved, newKeys), billType, number, f,
                 if existing.Some? then Some(existing.value.id) else None, now)
    ensures store.links == old(store.links)
  {
    evaluated', saved', newKeys' := evaluated + 1, saved, newKeys;
    var sponsor := FirstSponsor(f.detail);
    var t := CountParties(f.cosponsorParties, sponsor);
    var score := BipartisanScore(t.r, t.d);
    var status := StatusName(DeriveBillStatus(OrNull(f.detail.latestActionText)));
    ghost var record := BillRecord(billType, number, f, now);
    assert record.bipartisanScore == score && record.status == status;
    if score == 0.0 && status != "enacted" {
      return;
    }
    var data := BillRecord(billType, number, f, now);
    if existing.Some? {
      store.UpdateBill(existing.value.id, data);
    } else {
      var id := store.InsertBill(data);
    }
    saved' := saved + 1;
    newKeys' := newKeys + [BillMatcher.BillInfo(BillKey(billType, number), f.detail.title, data.policyArea,
                                                data.legislativeSubjects)];
  }

  /** The inner loop over one type's advanced bills. */
  method EvaluateType(store: BillStore, billType: string, bills: seq<ListedBill>, env: Env,
                      evaluated: nat, saved: nat, newKeys: seq<BillMatcher.BillInfo>)
    returns (evaluated': nat, saved': nat, newKeys': seq<BillMatcher.BillInfo>)
    requires store.Valid()
    modifies store
    ensures store.Valid()
    ensures Progress(store.bills, store.nextBillId, evaluated', saved', newKeys') ==
            EvaluateAll(Progress(old(store.bills), old(store.nextBillId), evaluated, saved, newKeys), billType,
                        bills, env)
    ensures store.links == old(store.links)
  {
    ghost var p := Progress(store.bills, store.nextBillId, evaluated, saved, newKeys);
    evaluated', saved', newKeys' := evaluated, saved, newKeys;
    for k := 0 to |bills|
      invariant store.Valid() && store.links == old(store.links)
      invariant Progress(store.bills, store.nextBillId, evaluated', saved', newKeys') ==
                EvaluateAll(p, billType, bills[..k], env)
    {
      assert bills[..k + 1][..k] == bills[..k];
      evaluated', saved', newKeys' := EvaluateBill(store, billType, bills[k], env, evaluated', saved', newKeys');
    }
    assert bills[..|bills|] == bills;
  }

  /** The slug loop of one match. */
  method LinkSlugs(store: BillStore, billId: nat, slugs: seq<string>, confidence: string) returns (created: nat)
    modifies store
    ensures store.links == InsertLinks(old(store.links), billId, slugs, confidence) && created == |slugs|
    ensures store.bills == old(store.bills) && store.nextBillId == old(store.nextBillId)
  {
    created := 0;
    for k := 0 to |slugs|
      invariant store.links == InsertLinks(old(store.links), billId, slugs[..k], confidence) && created == k
      invariant store.bills == old(store.bills) && store.nextBillId == old(store.nextBillId)
    {
      assert slugs[..k + 1][..k] == slugs[..k];
      store.InsertLink(billId, slugs[k], confidence);
      created := created + 1;
    }
    assert slugs[..|slugs|] == slugs;
  }

  /** The match loop. */
  method LinkMatches(store: BillStore, matches: seq<BillMatcher.BillMatch>) returns (created: nat)
    requires store.Valid()
    modifies store
    ensures Linked(store.links, created) == LinkAll(old(store.links), old(store.bills), matches)
    ensures store.bills == old(store.bills) && store.nextBillId == old(store.nextBillId)
  {
    created := 0;
    for k := 0 to |matches|
      invariant store.Valid()
      invariant Linked(store.links, created) == LinkAll(old(store.links), old(store.bills), matches[..k])
      invariant store.bills == old(store.bills) && store.nextBillId == old(store.nextBillId)
    {
      assert matches[..k + 1][..k] == matches[..k];
      var m := matches[k];
      var (billType, number) := SplitKey(m.billKey);
      if number.None? {
        continue;
      }
      var bill := store.FindBill(CongressNumber, billType, number.value);
      ghost var e := MatchedBill(store.bills, m.billKey);
      if bill.None? {
        continue;
      }
      assert e == Some(bill.value.id) by {
        assert SameBill(store.bills[e.value].data, store.bills[bill.value.id].data);
      }
      var n := LinkSlugs(store, bill.value.id, m.topicSlugs, m.confidence);
      created := created + n;
    }
    assert matches[..|matches|] == matches;
  }

  /** `runBillMatcher`: no call for empty input, otherwise one backend call. */
  method MatchBills(backend: Backend, infos: seq<BillMatcher.BillInfo>, slugs: seq<string>,
                    parse: string -> Option<BillMatcher.BillMatchResult>)
    returns (r: Result<BillMatcher.BillMatchResult>)
    modifies backend
    ensures r == BillMatcher.Run(infos, slugs, backend.respond, parse)
    ensures backend.calls == old(backend.calls) +
              (if BillMatcher.CallsBackend(infos, slugs) then [Call(MatcherRole, BillMatcher.Prompt(infos, slugs))]
               else [])
  {
    if !BillMatcher.CallsBackend(infos, slugs) {
      return Ok(BillMatcher.Default);
    }
    var reply := backend.CallAgent(MatcherRole, BillMatcher.Prompt(infos, slugs));
    if reply.Threw? {
      return Threw;
    }
    return Ok(BillMatcher.Interpret(reply.value, parse));
  }

  /**
   * The result of the distinct-slug query: every slug of a stored brief, each
   * exactly once, in the order the database returns them.
   */
  ghost predicate AllBriefSlugs(slugs: seq<string>, briefs: seq<Brief>)
  {
    (forall s :: s in slugs <==> exists i :: 0 <= i < |briefs| && briefs[i].slug == s) &&
    (forall i, j :: 0 <= i < j < |slugs| ==> slugs[i] != slugs[j])
  }

  /**
   * With at least one stored brief, a harvest that saved bills sends the
   * matcher exactly one request, naming every brief slug.
   */
  lemma MatcherSeesEverySlug(q: Progress, links: map<(nat, string), string>, slugs: seq<string>,
                             briefs: seq<Brief>, respond: Responder,
                             parse: string -> Option<BillMatcher.BillMatchResult>)
    requires AllBriefSlugs(slugs, briefs) && q.newKeys != [] && |briefs| > 0
    ensures MatchStage(q, links, slugs, respond, parse).calls == [Call(MatcherRole, BillMatcher.Prompt(q.newKeys, slugs))]
    ensures forall i :: 0 <= i < |briefs| ==> briefs[i].slug in slugs
  {
    assert briefs[0].slug in slugs;
  }

  /**
   * `GET`: `slugs` is the list the distinct-slug query returned; it is queried
   * exactly when the harvest completed and saved at least one bill, and is
   * empty otherwise.
   */
  method Get(store: BillStore, briefStore: Store, backend: Backend, header: Option<string>,
             secret: Option<string>, env: Env, parse: string -> Option<BillMatcher.BillMatchResult>)
    returns (reply: BillsReply, ghost slugs: seq<string>)
    requires store.Valid()
    modifies store, backend
    ensures store.Valid()
    ensures !Authorized(header, secret) ==>
              reply == Unauthorized && store.bills == old(store.bills) && store.links == old(store.links) &&
              store.nextBillId == old(store.nextBillId) && backend.calls == old(backend.calls)
    ensures Authorized(header, secret) ==>
              var run := BillsSpec(old(store.bills), old(store.nextBillId), old(store.links), env, slugs,
                                   backend.respond, parse);
              reply == run.reply && store.bills == run.bills && store.nextBillId == run.nextBillId &&
              store.links == run.links && backend.calls == old(backend.calls) + run.calls
    ensures var h := HarvestAll(Progress(old(store.bills), old(store.nextBillId), 0, 0, []), BillTypes, env);
            if Authorized(header, secret) && !h.failed && h.progress.newKeys != [] then
              AllBriefSlugs(slugs, briefStore.briefs)
            else slugs == []
  {
    slugs := [];
    if secret.None? || secret.value == "" || header != Some("Bearer " + secret.value) {
      return Unauthorized, slugs;
    }
    var failed, evaluated, saved, newKeys := HarvestLists(store, env);
    if failed {
      return Failed, slugs;
    }
    reply, slugs := MatchNewBills(store, briefStore, backend, evaluated, saved, newKeys, parse);
  }

  /** The outer loop over the bill types; it stops at the first list that cannot be fetched. */
  method HarvestLists(store: BillStore, env: Env)
    returns (failed: bool, evaluated: nat, saved: nat, newKeys: seq<BillMatcher.BillInfo>)
    requires store.Valid()
    modifies store
    ensures store.Valid() && store.links == old(store.links)
    ensures HarvestAll(Progress(old(store.bills), old(store.nextBillId), 0, 0, []), BillTypes, env) ==
            Harvest(Progress(store.bills, store.nextBillId, evaluated, saved, newKeys), failed)
  {
    ghost var start := Progress(store.bills, store.nextBillId, 0, 0, []);
    failed, evaluated, saved, newKeys := false, 0, 0, [];
    for k := 0 to |BillTypes|
      invariant store.Valid() && store.links == old(store.links)
      invariant HarvestAll(start, BillTypes[..k], env) ==
                Harvest(Progress(store.bills, store.nextBillId, evaluated, saved, newKeys), false)
    {
      HarvestNext(start, BillTypes, k, env);
      var billType := BillTypes[k];
      var list := env.listing(billType);
      if list.None? {
        HarvestStaysFailed(start, BillTypes, k + 1, env);
        return true, evaluated, saved, newKeys;
      }
      var advanced := Filter(list.value, IsAdvancedListed);
      evaluated, saved, newKeys := EvaluateType(store, billType, advanced, env, evaluated, saved, newKeys);
    }
    assert BillTypes[..|BillTypes|] == BillTypes;
  }

  /** The end of `GET` after every bill list was read: match the new bills to the topics and link them. */
  method MatchNewBills(store: BillStore, briefStore: Store, backend: Backend, evaluated: nat, saved: nat,
                       newKeys: seq<BillMatcher.BillInfo>, parse: string -> Option<BillMatcher.BillMatchResult>)
    returns (reply: BillsReply, ghost slugs: seq<string>)
    requires store.Valid()
    modifies store, backend
    ensures store.Valid()
    ensures var run := MatchStage(Progress(old(store.bills), old(store.nextBillId), evaluated, saved, newKeys),
                                  old(store.links), slugs, backend.respond, parse);
            reply == run.reply && store.bills == run.bills && store.nextBillId == run.nextBillId &&
            store.links == run.links && backend.calls == old(backend.calls) + run.calls
    ensures if newKeys == [] then slugs == [] else AllBriefSlugs(slugs, briefStore.briefs)
  {
    slugs := [];
    var linksCreated := 0;
    if |newKeys| > 0 {
      var found := briefStore.DistinctSlugs();
      slugs := found;
      if |found| > 0 {
        var result := MatchBills(backend, newKeys, found, parse);
        if result.Ok? {
          linksCreated := LinkMatches(store, result.value.matches);
        }
      }
    }
    return Complete(evaluated, saved, linksCreated), slugs;
  }

  /** One more type: its list is read unless an earlier one failed. */
  lemma HarvestNext(p: Progress, types: seq<string>, k: nat, env: Env)
    requires k < |types|
    ensures var h := HarvestAll(p, types[..k], env);
            !h.failed ==>
              HarvestAll(p, types[..k + 1], env) ==
                match env.listing(types[k])
                case None => Harvest(h.progress, true)
                case Some(list) => Harvest(EvaluateAll(h.progress, types[k], Filter(list, IsAdvancedListed), env), false)
  {
    assert types[..k + 1][..k] == types[..k];
  }

  /** Once a bill list fails, the later types change nothing. */
  lemma {:induction false} HarvestStaysFailed(p: Progress, types: seq<string>, k: nat, env: Env)
    requires k <= |types| && HarvestAll(p, types[..k], env).failed
    ensures HarvestAll(p, types, env) == HarvestAll(p, types[..k], env)
    decreases |types| - k
  {
    if k < |types| {
      assert types[..k + 1][..k] == types[..k];
      HarvestStaysFailed(p, types, k + 1, env);
    } else {
      assert types[..k] == types;
    }
  }
}
