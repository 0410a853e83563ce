/**
 * The tables the pipeline and the cron routes read and write, as in-memory
 * stores: speeches keyed by their serial id, briefs in insertion order, bills
 * keyed by id and bill-topic links keyed by (bill id, topic slug).
 */
module Db {
  import opened Wrappers

  /** A row of `speeches`; `date` is the ingestion day as milliseconds since the epoch. */
  datatype SpeechRow = SpeechRow(id: nat, granuleId: string, title: string, speaker: Option<string>,
                                 party: Option<string>, chamber: string, date: int, rawHtml: string,
                                 plainText: string, topics: seq<string>, processed: bool)

  /** One entry of a brief's agent transcript. */
  datatype AgentMessage = AgentMessage(agent: string, role: string, content: string, timestamp: string)

  /** Attribution for one speech a brief was built from. */
  datatype SpeechMeta = SpeechMeta(granuleId: string, speaker: Option<string>, party: string,
                                   chamber: string, title: string, corePosition: string)

  /** A row of `briefs`. */
  datatype Brief = Brief(date: int, topic: string, slug: string, redPosition: string,
                         bluePosition: string, sharedValues: seq<string>, differences: seq<string>,
                         compromisePaths: seq<string>, democracyCheck: string,
                         democracyFlagged: bool, policyDraft: string,
                         agentConversation: seq<AgentMessage>, collaborationScore: Option<string>,
                         collaborationReason: Option<string>, sourceSpeechMeta: seq<SpeechMeta>,
                         sourceSpeechIds: seq<nat>)

  /** `rows` lists the speeches of `m` dated within [start, end], each exactly once. */
  ghost predicate Listing(m: map<nat, SpeechRow>, start: int, end: int, rows: seq<SpeechRow>)
  {
    (forall i :: 0 <= i < |rows| ==>
       rows[i].id in m && m[rows[i].id] == rows[i] && start <= rows[i].date <= end) &&
    (forall id :: id in m && start <= m[id].date <= end ==>
       exists i :: 0 <= i < |rows| && rows[i].id == id) &&
    (forall i, j :: 0 <= i < j < |rows| ==> rows[i].id != rows[j].id)
  }

  /** The speech table after `processed` has been set on every id in `ids`. */
  function MarkAll(m: map<nat, SpeechRow>, ids: set<nat>): (r: map<nat, SpeechRow>)
    ensures r.Keys == m.Keys
    ensures forall id :: id in m ==> r[id] == m[id].(processed := m[id].processed || id in ids)
  {
    map id | id in m :: if id in ids then m[id].(processed := true) else m[id]
  }

  /** The speech and brief tables. */
  class Store {
    var speeches: map<nat, SpeechRow>
    var nextSpeechId: nat
    var briefs: seq<Brief>

    /** Every row is stored under its own id, and ids are handed out in increasing order. */
    ghost predicate Valid()
      reads this
    {
      forall id :: id in speeches ==> speeches[id].id == id && id < nextSpeechId
    }

    constructor ()
      ensures Valid() && speeches == map[] && nextSpeechId == 0 && briefs == []
    {
      speeches := map[];
      nextSpeechId := 0;
      briefs := [];
    }

    /** `findMany` with a `date` range: the rows come back in no particular order. */
    method SpeechesBetween(start: int, end: int) returns (rows: seq<SpeechRow>)
      requires Valid()
      ensures Listing(speeches, start, end, rows)
    {
      var wanted := set id | id in speeches && start <= speeches[id].date <= end;
      var left := wanted;
      rows := [];
      while left != {}
        invariant left <= wanted
        invariant forall i :: 0 <= i < |rows| ==>
                    rows[i].id in wanted - left && speeches[rows[i].id] == rows[i]
        invariant forall id :: id in wanted - left ==> exists i :: 0 <= i < |rows| && rows[i].id == id
        invariant forall i, j :: 0 <= i < j < |rows| ==> rows[i].id != rows[j].id
        decreases |left|
      {
        var id :| id in left;
        ghost var before := rows;
        ghost var leftBefore := left;
        rows := rows + [speeches[id]];
        left := left - {id};
        assert rows[|before|].id == id;
        forall k | k in wanted - left ensures exists i :: 0 <= i < |rows| && rows[i].id == k {
          if k != id {
            assert k in wanted - leftBefore;
            var i :| 0 <= i < |before| && before[i].id == k;
            assert rows[i] == before[i];
          }
        }
      }
      forall id | id in speeches && start <= speeches[id].date <= end
        ensures exists i :: 0 <= i < |rows| && rows[i].id == id
      {
        assert id in wanted - left;
      }
    }

    /** `findFirst` by granule id. */
    method FindByGranule(granuleId: string) returns (r: Option<SpeechRow>)
      ensures r.None? <==> forall id :: id in speeches ==> speeches[id].granuleId != granuleId
      ensures r.Some? ==> r.value in speeches.Values && r.value.granuleId == granuleId
    {
      if exists id :: id in speeches && speeches[id].granuleId == granuleId {
        var id :| id in speeches && speeches[id].granuleId == granuleId;
        r := Some(speeches[id]);
      } else {
        r := None;
      }
    }

    /** `insert` into `speeches`: the row gets the next serial id. */
    method InsertSpeech(row: SpeechRow) returns (id: nat)
      requires Valid()
      modifies this
      ensures Valid()
      ensures id == old(nextSpeechId) && nextSpeechId == id + 1
      ensures speeches == old(speeches)[id := row.(id := id)]
      ensures briefs == old(briefs)
    {
      id := nextSpeechId;
      speeches := speeches[id := row.(id := id)];
      nextSpeechId := id + 1;
    }

    /** `update speeches set processed = true where id = ...`; a missing id changes nothing. */
    method MarkProcessed(id: nat)
      requires Valid()
      modifies this
      ensures Valid()
      ensures speeches == MarkAll(old(speeches), {id})
      ensures nextSpeechId == old(nextSpeechId) && briefs == old(briefs)
    {
      if id in speeches {
        speeches := speeches[id := speeches[id].(processed := true)];
      }
    }

    method InsertBrief(b: Brief)
      modifies this
      ensures briefs == old(briefs) + [b]
      ensures speeches == old(speeches) && nextSpeechId == old(nextSpeechId)
    {
      briefs := briefs + [b];
    }

    /** `selectDistinct` of the brief slugs: each slug once, in no particular order. */
    method DistinctSlugs() returns (slugs: seq<string>)
      ensures forall s :: s in slugs <==> exists i :: 0 <= i < |briefs| && briefs[i].slug == s
      ensures forall i, j :: 0 <= i < j < |slugs| ==> slugs[i] != slugs[j]
    {
      var all := set i | 0 <= i < |briefs| :: briefs[i].slug;
      var left := all;
      slugs := [];
      while left != {}
        invariant left <= all
        invariant forall s :: s in slugs <==> s in all - left
        invariant forall i, j :: 0 <= i < j < |slugs| ==> slugs[i] != slugs[j]
        decreases |left|
      {
        var s :| s in left;
        assert s !in slugs;
        slugs := slugs + [s];
        left := left - {s};
      }
    }
  }

  /** The columns of a `bills` row that a save writes. */
  datatype BillData = BillData(congress: string, billType: string, billNumber: string,
                               title: string, policyArea: Option<string>,
                               legislativeSubjects: seq<string>, sponsorName: Option<string>,
                               sponsorParty: Option<string>, sponsorState: Option<string>,
                               cosponsorCountR: string, cosponsorCountD: string,
                               cosponsorCountI: string, cosponsorTotal: string,
                               bipartisanScore: real, status: string,
                               latestActionText: Option<string>, latestActionDate: Option<string>,
                               congressGovUrl: string, updatedAt: int)

  datatype BillRow = BillRow(id: nat, data: BillData)

  /** Two rows describe the same bill when (congress, type, number) agree. */
  predicate SameBill(a: BillData, b: BillData)
  {
    a.congress == b.congress && a.billType == b.billType && a.billNumber == b.billNumber
  }

  /** Rows sit under their own ids below `nextBillId`, and no two rows are the same bill. */
  ghost predicate BillsValid(bills: map<nat, BillRow>, nextBillId: nat)
  {
    (forall id :: id in bills ==> bills[id].id == id && id < nextBillId) &&
    (forall a, b :: a in bills && b in bills && SameBill(bills[a].data, bills[b].data) ==> a == b)
  }

  /** The bill and bill-topic link tables. */
  class BillStore {
    var bills: map<nat, BillRow>
    var nextBillId: nat
    /** Link confidences, keyed by the (bill id, topic slug) pair the table keeps unique. */
    var links: map<(nat, string), string>

    ghost predicate Valid()
      reads this
    {
      BillsValid(bills, nextBillId)
    }

    constructor ()
      ensures Valid() && bills == map[] && links == map[]
    {
      bills := map[];
      nextBillId := 0;
      links := map[];
    }

    /** `findFirst` by (congress, type, number). */
    method FindBill(congress: string, billType: string, billNumber: string) returns (r: Option<BillRow>)
      requires Valid()
      ensures r.None? <==> forall id :: id in bills ==>
                !(bills[id].data.congress == congress && bills[id].data.billType == billType &&
                  bills[id].data.billNumber == billNumber)
      ensures r.Some? ==> r.value.id in bills && bills[r.value.id] == r.value &&
                          r.value.data.congress == congress && r.value.data.billType == billType &&
                          r.value.data.billNumber == billNumber
    {
      if exists id :: id in bills && bills[id].data.congress == congress &&
                      bills[id].data.billType == billType && bills[id].data.billNumber == billNumber {
        var id :| id in bills && bills[id].data.congress == congress &&
                  bills[id].data.billType == billType && bills[id].data.billNumber == billNumber;
        r := Some(bills[id]);
      } else {
        r := None;
      }
    }

    /** `update bills set ... where id = ...`, keeping the bill's natural key. */
    method UpdateBill(id: nat, data: BillData)
      requires Valid() && id in bills && SameBill(bills[id].data, data)
      modifies this
      ensures Valid()
      ensures bills == old(bills)[id := BillRow(id, data)]
      ensures nextBillId == old(nextBillId) && links == old(links)
    {
      bills := bills[id := BillRow(id, data)];
    }

    /** `insert into bills`, for a bill not stored yet. */
    method InsertBill(data: BillData) returns (id: nat)
      requires Valid() && forall k :: k in bills ==> !SameBill(bills[k].data, data)
      modifies this
      ensures Valid()
      ensures id == old(nextBillId) && nextBillId == id + 1
      ensures bills == old(bills)[id := BillRow(id, data)]
      ensures links == old(links)
    {
      id := nextBillId;
      bills := bills[id := BillRow(id, data)];
      nextBillId := id + 1;
    }

    /** `insert into bill_topic_links ... on conflict do nothing`. */
    method InsertLink(billId: nat, slug: string, confidence: string)
      modifies this
      ensures links == if (billId, slug) in old(links) then old(links)
                       else old(links)[(billId, slug) := confidence]
      ensures bills == old(bills) && nextBillId == old(nextBillId)
    {
      if (billId, slug) !in links {
        links := links[(billId, slug) := confidence];
      }
    }
  }
}
