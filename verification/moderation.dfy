/** Keyword moderation of the user's question (app/services/moderation.py):
    the lower-cased text is refused when any blocklisted term occurs in it as
    a substring. */
module Moderation {
  import opened Common
  import opened Text

  const Blocklist: set<string> := {"hate", "suicide", "bomb", "kill", "murder", "shoot", "terror", "nsfw"}

  /** The order the terms are tried in. The source iterates a set, whose
      order is not fixed, so the contracts below only ever promise "some
      occurring term", never a particular one. */
  const BlocklistOrder: seq<string> := ["hate", "suicide", "bomb", "kill", "murder", "shoot", "terror", "nsfw"]

  lemma BlocklistOrderEnumerates()
    ensures forall term :: term in BlocklistOrder <==> term in Blocklist
  {
  }

  /** The message shown for a refused question. */
  function Reason(term: string): string {
    "contains disallowed content: “" + term + "”"
  }

  /** The first of `terms` that occurs in `t`. */
  function FirstOccurring(t: string, terms: seq<string>): (r: Option<string>)
    ensures r.None? <==> forall i :: 0 <= i < |terms| ==> !Contains(t, terms[i])
    ensures r.Some? ==> r.value in terms && Contains(t, r.value)
    decreases |terms|
  {
    if |terms| == 0 then None
    else if Contains(t, terms[0]) then Some(terms[0])
    else FirstOccurring(t, terms[1..])
  }

  /** A question is blocked when some term occurs in its lower-cased form. */
  predicate Blocked(text: string) {
    exists term :: term in Blocklist && Contains(Lower(text), term)
  }

  /** `run_moderation`: `(allowed, reason)`; allowed exactly when no
      blocklisted term occurs in the lower-cased text (`None` reads as ""),
      and a refusal names a term that does occur. */
  function RunModeration(text: Option<string>): (r: (bool, Option<string>))
    ensures r.0 <==> !Blocked(text.GetOr(""))
    ensures r.0 <==> r.1.None?
    ensures !r.0 ==> exists term :: term in Blocklist && Contains(Lower(text.GetOr("")), term) && r.1.value == Reason(term)
  {
    var t := Lower(text.GetOr(""));
    match FirstOccurring(t, BlocklistOrder)
    case None =>
      NoneOccurs(t);
      (true, None)
    case Some(term) =>
      BlocklistOrderEnumerates();
      assert term in Blocklist;
      (false, Some(Reason(term)))
  }

  /** When no term of the ordered list occurs, no blocklisted term does. */
  lemma NoneOccurs(t: string)
    requires forall i :: 0 <= i < |BlocklistOrder| ==> !Contains(t, BlocklistOrder[i])
    ensures forall term :: term in Blocklist ==> !Contains(t, term)
  {
    BlocklistOrderEnumerates();
    forall term | term in Blocklist ensures !Contains(t, term) {
      var i :| 0 <= i < |BlocklistOrder| && BlocklistOrder[i] == term;
    }
  }

  /** Case does not matter: a question and its lower-cased form get the same
      verdict. */
  lemma ModerationIgnoresCase(text: string)
    ensures RunModeration(Some(Lower(text))) == RunModeration(Some(text))
  {
    LowerIdempotent(text);
  }

  /** Refusal is monotone: text that contains a refused question is refused
      too. */
  lemma ModerationMonotone(question: string, text: string)
    requires Contains(text, question)
    requires !RunModeration(Some(question)).0
    ensures !RunModeration(Some(text)).0
  {
    var term :| term in Blocklist && Contains(Lower(question), term);
    ContainsLower(text, question);
    ContainsTransitive(Lower(text), Lower(question), term);
  }

  /** Each term on its own is refused, whatever its case. */
  lemma TermIsRefused(term: string)
    requires term in Blocklist
    ensures !RunModeration(Some(term)).0
  {
    LowerWordsAreLower(term);
    ContainsSelf(term);
  }

  lemma LowerWordsAreLower(term: string)
    requires term in Blocklist
    ensures Lower(term) == term
  {
    forall i | 0 <= i < |term| ensures LowerChar(term[i]) == term[i] {
      LowerTermChar(term, i);
    }
  }

  lemma LowerTermChar(term: string, i: int)
    requires term in Blocklist && 0 <= i < |term|
    ensures 'a' <= term[i] <= 'z'
  {
    if term == "hate" {
    } else if term == "suicide" {
    } else if term == "bomb" {
    } else if term == "kill" {
    } else if term == "murder" {
    } else if term == "shoot" {
    } else if term == "terror" {
    } else {
    }
  }

  /** No text means nothing to refuse. */
  lemma EmptyIsAllowed()
    ensures RunModeration(None) == (true, None)
    ensures RunModeration(Some("")) == (true, None)
  {
    forall term | term in Blocklist ensures !Contains("", term) {
      assert |term| > 0;
    }
  }
}
