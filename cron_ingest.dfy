/**
 * The daily speech-ingestion cron route: after the secret check, every
 * speech granule of the target day that is new and whose plain text is at
 * least 200 characters long is stored as an unprocessed speech.
 */
module CronIngest {
  import opened Wrappers
  import opened Db
  import GovInfo

  /** One entry of the day's granule listing. */
  datatype Granule = Granule(granuleId: string, title: string, granuleClass: string)

  /** `fetchGranuleHtml` for the target day: `None` when the fetch throws. */
  type HtmlFetcher = string -> Option<string>

  const MinTextLength: nat := 200

  // ------------------------------------------------------------------- auth

  /** The template `Bearer ${CRON_SECRET}`: an unset secret is printed as "undefined". */
  function ExpectedHeader(secret: Option<string>): string
  {
    "Bearer " + (if secret.Some? then secret.value else "undefined")
  }

  predicate Authorized(header: Option<string>, secret: Option<string>)
  {
    header == Some(ExpectedHeader(secret))
  }

  /** With a secret set, exactly the header "Bearer <secret>" gets in. */
  lemma AuthorizedWithSecret(header: Option<string>, secret: string)
    ensures Authorized(header, Some(secret)) <==> header == Some("Bearer " + secret)
    ensures !Authorized(None, Some(secret))
  {
  }

  /** With the secret unset, the literal header "Bearer undefined" is accepted. */
  lemma UnsetSecretAcceptsUndefined()
    ensures Authorized(Some("Bearer undefined"), None)
    ensures !Authorized(None, None)
  {
    assert ExpectedHeader(None) == "Bearer " + "undefined";
    assert "Bearer " + "undefined" == "Bearer undefined";
  }

  // ------------------------------------------------------------- the loop

  /**
   * What a granule's handling depends on besides the table: the HTML fetch,
   * the text extractor and the speaker parser (`htmlToPlainText` and
   * `parseSpeaker` in the route, see `Live`) and the target day.
   */
  datatype Env = Env(fetch: HtmlFetcher, plainOf: string -> string, speakerOf: string -> Option<string>, date: int)

  /** The route's own environment. */
  function Live(fetch: HtmlFetcher, date: int): Env
  {
    Env(fetch, GovInfo.HtmlToPlainText, GovInfo.ParseSpeaker, date)
  }

  /** What the loop has done so far: the speech table, the next serial id and the two counters. */
  datatype Progress = Progress(speeches: map<nat, SpeechRow>, nextId: nat, ingested: nat, skipped: nat)

  predicate Known(speeches: map<nat, SpeechRow>, granuleId: string)
  {
    exists id :: id in speeches && speeches[id].granuleId == granuleId
  }

  /** The row inserted for a granule (its id is assigned by the table). */
  function NewRow(g: Granule, html: string, env: Env): SpeechRow
  {
    var plainText := env.plainOf(html);
    SpeechRow(0, g.granuleId, g.title, env.speakerOf(plainText), None, g.granuleClass, env.date, html,
              plainText, [], false)
  }

  /**
   * One granule: a stored granule id is skipped; a failed fetch is logged and
   * counted nowhere; a short text is skipped; anything else is inserted.
   */
  function Step(p: Progress, g: Granule, env: Env): Progress
  {
    if Known(p.speeches, g.granuleId) then p.(skipped := p.skipped + 1)
    else
      match env.fetch(g.granuleId)
      case None => p
      case Some(html) =>
        if |env.plainOf(html)| < MinTextLength then p.(skipped := p.skipped + 1)
        else Progress(p.speeches[p.nextId := NewRow(g, html, env).(id := p.nextId)], p.nextId + 1,
                      p.ingested + 1, p.skipped)
  }

  /** The loop over `granules`, in order. */
  function Ingested(p: Progress, granules: seq<Granule>, env: Env): Progress
  {
    if granules == [] then p
    else Step(Ingested(p, granules[..|granules| - 1], env), granules[|granules| - 1], env)
  }

  // -------------------------------------------------------------- invariants

  /** Rows sit under their own ids, below the next id. */
  ghost predicate Numbered(p: Progress)
  {
    forall id :: id in p.speeches ==> p.speeches[id].id == id && id < p.nextId
  }

  /** No granule id is stored twice. */
  ghost predicate UniqueGranules(speeches: map<nat, SpeechRow>)
  {
    forall a, b :: a in speeches && b in speeches && speeches[a].granuleId == speeches[b].granuleId ==> a == b
  }

  /** `row` is the record stored for one of `granules`, with its text long enough. */
  ghost predicate StoredFor(row: SpeechRow, granules: seq<Granule>, env: Env)
  {
    exists i :: 0 <= i < |granules| && env.fetch(granules[i].granuleId).Some? &&
      row == NewRow(granules[i], env.fetch(granules[i].granuleId).value, env).(id := row.id) &&
      |row.plainText| >= MinTextLength && !row.processed && row.party.None? && row.topics == [] &&
      row.chamber == granules[i].granuleClass && row.date == env.date
  }

  /** How `after` relates to `before` once the loop has seen `granules`. */
  ghost predicate Extends(before: Progress, after: Progress, granules: seq<Granule>, env: Env)
  {
    before.speeches.Keys <= after.speeches.Keys &&
    (forall id :: id in before.speeches ==> after.speeches[id] == before.speeches[id]) &&
    (forall id :: id in after.speeches && id !in before.speeches ==>
       before.nextId <= id && StoredFor(after.speeches[id], granules, env)) &&
    after.ingested + after.skipped <= before.ingested + before.skipped + |granules| &&
    after.ingested - before.ingested == after.nextId - before.nextId == |after.speeches| - |before.speeches| &&
    before.ingested <= after.ingested && before.skipped <= after.skipped
  }

  lemma StepKeeps(p: Progress, g: Granule, env: Env)
    requires Numbered(p) && UniqueGranules(p.speeches)
    ensures Numbered(Step(p, g, env)) && UniqueGranules(Step(p, g, env).speeches)
  {
    if !Known(p.speeches, g.granuleId) && env.fetch(g.granuleId).Some? {
      var html := env.fetch(g.granuleId).value;
      if |env.plainOf(html)| >= MinTextLength {
        InsertKeeps(p, NewRow(g, html, env));
      }
    }
  }

  /** Storing a row under the next id, for a granule not stored yet, keeps both invariants. */
  lemma InsertKeeps(p: Progress, row: SpeechRow)
    requires Numbered(p) && UniqueGranules(p.speeches) && !Known(p.speeches, row.granuleId)
    ensures var m := p.speeches[p.nextId := row.(id := p.nextId)];
            Numbered(Progress(m, p.nextId + 1, p.ingested + 1, p.skipped)) && UniqueGranules(m)
  {
    var m := p.speeches[p.nextId := row.(id := p.nextId)];
    assert p.nextId !in p.speeches;
    forall a, b | a in m && b in m && m[a].granuleId == m[b].granuleId
      ensures a == b
    {
      if a != p.nextId && b != p.nextId {
        assert p.speeches[a].granuleId == p.speeches[b].granuleId;
      }
    }
  }

  lemma {:induction false} IngestedNumbered(p: Progress, granules: seq<Granule>, env: Env)
    requires Numbered(p) && UniqueGranules(p.speeches)
    ensures Numbered(Ingested(p, granules, env))
    ensures UniqueGranules(Ingested(p, granules, env).speeches)
  {
    if granules != [] {
      var n := |granules| - 1;
      IngestedNumbered(p, granules[..n], env);
      StepKeeps(Ingested(p, granules[..n], env), granules[n], env);
    }
  }

  /** A step leaves stored rows alone, adds at most the row for its granule and counts it at most once. */
  lemma StepExtends(p: Progress, g: Granule, env: Env)
    requires Numbered(p)
    ensures var q := Step(p, g, env);
            p.speeches.Keys <= q.speeches.Keys &&
            (forall id :: id in p.speeches ==> q.speeches[id] == p.speeches[id]) &&
            (forall id :: id in q.speeches && id !in p.speeches ==>
               id == p.nextId && StoredFor(q.speeches[id], [g], env)) &&
            q.ingested + q.skipped <= p.ingested + p.skipped + 1 &&
            q.ingested - p.ingested == q.nextId - p.nextId == |q.speeches| - |p.speeches| &&
            p.ingested <= q.ingested && p.skipped <= q.skipped && p.nextId <= q.nextId
  {
    var q := Step(p, g, env);
    if !Known(p.speeches, g.granuleId) && env.fetch(g.granuleId).Some? {
      var html := env.fetch(g.granuleId).value;
      if |env.plainOf(html)| >= MinTextLength {
        var row := NewRow(g, html, env).(id := p.nextId);
        assert q.speeches == p.speeches[p.nextId := row];
        assert p.nextId !in p.speeches;
        assert [g][0] == g;
        assert StoredFor(row, [g], env);
      }
    }
  }

  /**
   * Over the whole loop: rows already stored are untouched; every new row
   * was built from one of the granules, has at least 200 characters of text,
   * is unprocessed, has no party and no topics and takes the granule's class
   * as its chamber; and `ingested + skipped` grows by at most the number of granules.
   */
  lemma {:induction false} IngestedExtends(p: Progress, granules: seq<Granule>, env: Env)
    requires Numbered(p) && UniqueGranules(p.speeches)
    ensures Extends(p, Ingested(p, granules, env), granules, env)
  {
    if granules != [] {
      var n := |granules| - 1;
      var init := granules[..n];
      IngestedExtends(p, init, env);
      IngestedNumbered(p, init, env);
      var mid := Ingested(p, init, env);
      var q := Step(mid, granules[n], env);
      StepExtends(mid, granules[n], env);
      forall id | id in q.speeches && id !in p.speeches
        ensures p.nextId <= id && StoredFor(q.speeches[id], granules, env)
      {
        StoredForWider(q.speeches[id], init, granules, env);
        StoredForWider(q.speeches[id], [granules[n]], granules, env);
      }
    }
  }

  lemma StoredForWider(row: SpeechRow, part: seq<Granule>, granules: seq<Granule>, env: Env)
    requires forall i :: 0 <= i < |part| ==> part[i] in granules
    ensures StoredFor(row, part, env) ==> StoredFor(row, granules, env)
  {
    if StoredFor(row, part, env) {
      var i :| 0 <= i < |part| && env.fetch(part[i].granuleId).Some? &&
               row == NewRow(part[i], env.fetch(part[i].granuleId).value, env).(id := row.id);
      var j :| 0 <= j < |granules| && granules[j] == part[i];
    }
  }

  // ------------------------------------------------------------------ route

  /** The route's JSON replies. */
  datatype Reply =
    | Unauthorized                                            // 401
    | NothingFound                                            // no granules: count 0
    | Complete(total: nat, ingested: nat, skipped: nat)
    | IngestionFailed                                         // the listing fetch threw: 500

  /**
   * `GET`: `listing` is what `fetchDailySpeechGranules` returned for the
   * target day (`None` when it threw), `date` the target day.
   */
  method Get(store: Store, header: Option<string>, secret: Option<string>, listing: Option<seq<Granule>>,
             fetch: HtmlFetcher, date: int)
    returns (reply: Reply)
    requires store.Valid() && UniqueGranules(store.speeches)
    modifies store
    ensures store.Valid() && UniqueGranules(store.speeches)
    ensures store.briefs == old(store.briefs)
    ensures !Authorized(header, secret) ==>
              reply == Unauthorized && store.speeches == old(store.speeches) &&
              store.nextSpeechId == old(store.nextSpeechId)
    ensures Authorized(header, secret) && listing.None? ==>
              reply == IngestionFailed && store.speeches == old(store.speeches) &&
              store.nextSpeechId == old(store.nextSpeechId)
    ensures Authorized(header, secret) && listing == Some([]) ==>
              reply == NothingFound && store.speeches == old(store.speeches) &&
              store.nextSpeechId == old(store.nextSpeechId)
    ensures Authorized(header, secret) && listing.Some? && listing.value != [] ==>
              var before := Progress(old(store.speeches), old(store.nextSpeechId), 0, 0);
              var after := Ingested(before, listing.value, Live(fetch, date));
              reply == Complete(|listing.value|, after.ingested, after.skipped) &&
              store.speeches == after.speeches && store.nextSpeechId == after.nextId
  {
    if header != Some(ExpectedHeader(secret)) {
      return Unauthorized;
    }
    if listing.None? {
      return IngestionFailed;
    }
    var granules := listing.value;
    if |granules| == 0 {
      return NothingFound;
    }
    ghost var before := Progress(store.speeches, store.nextSpeechId, 0, 0);
    var env := Live(fetch, date);
    var ingested := 0;
    var skipped := 0;
    for i := 0 to |granules|
      invariant store.Valid() && UniqueGranules(store.speeches)
      invariant Progress(store.speeches, store.nextSpeechId, ingested, skipped) ==
                Ingested(before, granules[..i], env)
      invariant store.briefs == old(store.briefs)
    {
      assert granules[..i + 1][..i] == granules[..i];
      ingested, skipped := IngestGranule(store, granules[i], env, ingested, skipped);
    }
    assert granules[..|granules|] == granules;
    return Complete(|granules|, ingested, skipped);
  }

  /** The loop body for one granule; `env` is `Live(fetch, date)` in the route. */
  method IngestGranule(store: Store, g: Granule, env: Env, ingested: nat, skipped: nat)
    returns (ingested': nat, skipped': nat)
    requires store.Valid() && UniqueGranules(store.speeches)
    modifies store
    ensures store.Valid() && UniqueGranules(store.speeches) && store.briefs == old(store.briefs)
    ensures Progress(store.speeches, store.nextSpeechId, ingested', skipped') ==
            Step(Progress(old(store.speeches), old(store.nextSpeechId), ingested, skipped), g, env)
  {
    ghost var p := Progress(store.speeches, store.nextSpeechId, ingested, skipped);
    StepKeeps(p, g, env);
    ingested', skipped' := ingested, skipped;
    var existing := store.FindByGranule(g.granuleId);
    if existing.Some? {
      skipped' := skipped + 1;
      return;
    }
    var html := env.fetch(g.granuleId);
    if html.None? {
      return;
    }
    var plainText := env.plainOf(html.value);
    if |plainText| < MinTextLength {
      skipped' := skipped + 1;
      return;
    }
    var speaker := env.speakerOf(plainText);
    var row := SpeechRow(0, g.granuleId, g.title, speaker, None, g.granuleClass, env.date, html.value, plainText, [],
                         false);
    assert row == NewRow(g, html.value, env);
    var id := store.InsertSpeech(row);
    ingested' := ingested + 1;
  }

  /** The reply's counters never exceed the number of granules, and `ingested` is the number of rows added. */
  lemma CountersBounded(speeches: map<nat, SpeechRow>, nextId: nat, granules: seq<Granule>,
                        env: Env)
    requires Numbered(Progress(speeches, nextId, 0, 0)) && UniqueGranules(speeches)
    ensures var after := Ingested(Progress(speeches, nextId, 0, 0), granules, env);
            after.ingested + after.skipped <= |granules| &&
            after.ingested == |after.speeches| - |speeches|
  {
    IngestedExtends(Progress(speeches, nextId, 0, 0), granules, env);
  }

  /** A granule already stored is skipped without a fetch and changes nothing but `skipped`. */
  lemma KnownGranuleSkipped(p: Progress, g: Granule, env: Env)
    requires Known(p.speeches, g.granuleId)
    ensures Step(p, g, env) == p.(skipped := p.skipped + 1)
  {
  }

  /** A text under 200 characters is never stored. */
  lemma ShortTextSkipped(p: Progress, g: Granule, env: Env)
    requires env.fetch(g.granuleId).Some? && |env.plainOf(env.fetch(g.granuleId).value)| < MinTextLength
    ensures Step(p, g, env).speeches == p.speeches
    ensures Step(p, g, env).skipped == p.skipped + 1
  {
  }

  /** The same granule listed twice is stored at most once: its second visit is a skip. */
  lemma RepeatedGranuleSkipped(p: Progress, g: Granule, env: Env)
    requires Numbered(p)
    ensures var once := Step(p, g, env);
            Step(once, g, env).speeches == once.speeches &&
            (once.speeches != p.speeches ==> Step(once, g, env).skipped == once.skipped + 1)
  {
    var once := Step(p, g, env);
    if Known(p.speeches, g.granuleId) {
      var id :| id in p.speeches && p.speeches[id].granuleId == g.granuleId;
      assert once.speeches[id].granuleId == g.granuleId;
      KnownGranuleSkipped(once, g, env);
    } else if once.speeches != p.speeches {
      assert once.speeches[p.nextId].granuleId == g.granuleId;
      assert Known(once.speeches, g.granuleId);
      KnownGranuleSkipped(once, g, env);
    } else {
      // Neither stored: the fetch failed or the text was short, and it does again.
      assert p.nextId !in p.speeches;
      assert once.speeches == p.speeches && once.nextId == p.nextId;
    }
  }
}
