/** The Bill Matcher: new bipartisan bills and existing topic slugs in, bill-to-topic links out. */
module BillMatcher {
  import opened Wrappers
  import opened Text
  import opened Seqs
  import opened Claude
  import ResponseParser

  /** What the bills route hands over for one saved bill; a missing policy area is `None`. */
  datatype BillInfo = BillInfo(billKey: string, title: string, policyArea: Option<string>,
                               subjects: seq<string>)

  /** One parsed match; the confidence is whatever the reply says. */
  datatype BillMatch = BillMatch(billKey: string, topicSlugs: seq<string>, confidence: string)

  datatype BillMatchResult = BillMatchResult(matches: seq<BillMatch>)

  /** `policyArea || "none"`: both a missing and an empty policy area read "none". */
  function PolicyAreaText(policyArea: Option<string>): (r: string)
    ensures r == "none" <==> policyArea.None? || policyArea.value == "" || policyArea.value == "none"
    ensures policyArea.Some? && policyArea.value != "" ==> r == policyArea.value
  {
    if policyArea.None? || policyArea.value == "" then "none" else policyArea.value
  }

  function SubjectsText(subjects: seq<string>): string
  {
    if |subjects| > 0 then Join(subjects, ", ") else "none"
  }

  function BillBlock(b: BillInfo): string
  {
    "BILL " + b.billKey + ": \"" + b.title + "\"\n" +
    "  Policy Area: " + PolicyAreaText(b.policyArea) + "\n" +
    "  Subjects: " + SubjectsText(b.subjects)
  }

  const Closing := "\n\nMatch each bill to any relevant topic slugs. Only include clear, direct matches."

  /** Everything before the slug list. */
  function Head(bills: seq<BillInfo>): string
  {
    "BILLS:\n" + Join(Map(bills, BillBlock), "\n\n") + "\n\nTOPIC SLUGS:\n"
  }

  function Prompt(bills: seq<BillInfo>, topicSlugs: seq<string>): string
  {
    Head(bills) + Join(topicSlugs, ", ") + Closing
  }

  const Default := BillMatchResult([])

  /** Whether the backend is consulted at all. */
  predicate CallsBackend(bills: seq<BillInfo>, topicSlugs: seq<string>)
  {
    |bills| > 0 && |topicSlugs| > 0
  }

  function Interpret(reply: string, parse: string -> Option<BillMatchResult>): BillMatchResult
  {
    ResponseParser.ParseOr(reply, parse, Default)
  }

  /** `runBillMatcher`: empty input short-circuits to no matches; otherwise one backend call. */
  function Run(bills: seq<BillInfo>, topicSlugs: seq<string>, respond: Responder,
               parse: string -> Option<BillMatchResult>): (r: Result<BillMatchResult>)
    ensures !CallsBackend(bills, topicSlugs) ==> r == Ok(BillMatchResult([]))
    ensures CallsBackend(bills, topicSlugs) ==>
              (r.Threw? <==> respond(MatcherRole, Prompt(bills, topicSlugs)).Failure?)
  {
    if !CallsBackend(bills, topicSlugs) then Ok(Default)
    else
      match Answer(respond, MatcherRole, Prompt(bills, topicSlugs))
      case Threw => Threw
      case Ok(text) => Ok(Interpret(text, parse))
  }

  /** A bill with no policy area and no subjects renders both fields as "none". */
  lemma BareBillRendersNone(key: string, title: string)
    ensures BillBlock(BillInfo(key, title, None, [])) == BillBlock(BillInfo(key, title, Some(""), []))
    ensures SubjectsText([]) == "none" && PolicyAreaText(None) == "none"
  {
  }

  /** The k-th slug sits in the slug list of the prompt, after the bills, in input order. */
  lemma SlugInPrompt(bills: seq<BillInfo>, topicSlugs: seq<string>, k: nat)
    requires k < |topicSlugs|
    ensures OccursAt(Prompt(bills, topicSlugs), topicSlugs[k], |Head(bills)| + JoinOffset(topicSlugs, ", ", k))
    ensures k + 1 < |topicSlugs| ==>
              JoinOffset(topicSlugs, ", ", k) + |topicSlugs[k]| <= JoinOffset(topicSlugs, ", ", k + 1)
  {
    JoinItemAt(topicSlugs, ", ", k);
    OccursShifted(Head(bills), Join(topicSlugs, ", "), topicSlugs[k], JoinOffset(topicSlugs, ", ", k));
    OccursExtended(Head(bills) + Join(topicSlugs, ", "), Closing, topicSlugs[k],
                   |Head(bills)| + JoinOffset(topicSlugs, ", ", k));
    if k + 1 < |topicSlugs| {
      JoinItemsInOrder(topicSlugs, ", ", k, k + 1);
    }
  }

  /** A parsed reply is kept as it is: confidences outside "high"/"medium" are not filtered out. */
  lemma ParsedMatchesKept(reply: string, parse: string -> Option<BillMatchResult>, v: BillMatchResult)
    requires var span := ResponseParser.ExtractSpan(reply);
             span.Some? && parse(span.value) == Some(v)
    ensures Interpret(reply, parse) == v
  {
  }

  /** Without a parsable span there are no matches. */
  lemma UnparsableReplyMatchesNothing(reply: string, parse: string -> Option<BillMatchResult>)
    requires var span := ResponseParser.ExtractSpan(reply);
             span.None? || parse(span.value).None?
    ensures Interpret(reply, parse).matches == []
  {
  }
}
