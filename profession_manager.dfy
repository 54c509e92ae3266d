/** The profession catalogue of `ProfessionManager.tsx`: the search over the
    list and the record the form saves. */
module ProfessionManager {
  import opened Common

  /** A profession; an absent description or group is "". */
  datatype Profession = Profession(id: string, code: string, name: string, category: string,
                                   description: string, group: string,
                                   baseSalary: real, complement: real)

  /** The search keeps a profession whose name contains the term ignoring
      case, or whose code contains it exactly as typed. */
  predicate SearchMatch(p: Profession, term: string)
  {
    MatchesIgnoringCase(p.name, term) || Includes(p.code, term)
  }

  /** `filtered`: the matching professions in catalogue order. */
  function Filtered(professions: seq<Profession>, term: string): (r: seq<Profession>)
    ensures IsSubsequence(r, professions)
    ensures forall p :: p in r <==> p in professions && SearchMatch(p, term)
    ensures forall p :: multiset(r)[p] == if SearchMatch(p, term) then multiset(professions)[p] else 0
  {
    FilterIsSubsequence(professions, (p: Profession) => SearchMatch(p, term));
    FilterMultiplicity(professions, (p: Profession) => SearchMatch(p, term));
    Filter(professions, (p: Profession) => SearchMatch(p, term))
  }

  /** An empty search shows the whole catalogue. */
  lemma EmptySearchShowsAll(professions: seq<Profession>)
    ensures Filtered(professions, "") == professions
  {
    forall p | p in professions
      ensures SearchMatch(p, "")
    {
      EmptyTermMatches(p.code);
    }
    FilterKeepsAll(professions, (p: Profession) => SearchMatch(p, ""));
  }

  /** `handleSaveForm`: refused without a name or a code; otherwise the
      form's id or the generated `freshId`, the category or "Interna", and
      the rest of the form as it is. */
  function SaveForm(form: Profession, freshId: string): (r: Option<Profession>)
    ensures r.Some? <==> form.name != "" && form.code != ""
    ensures r.Some? ==> r.value.id == (if form.id != "" then form.id else freshId)
    ensures r.Some? ==> r.value.category == (if form.category != "" then form.category else "Interna")
    ensures r.Some? ==> r.value.(id := form.id, category := form.category) == form
  {
    if form.name == "" || form.code == "" then None
    else Some(form.(id := if form.id != "" then form.id else freshId,
                    category := if form.category != "" then form.category else "Interna"))
  }

  /** Saving an existing profession without changes gives back the same
      record: its id is kept and no fresh id is used. */
  lemma SaveUnchangedIsIdentity(p: Profession, freshId: string)
    requires p.id != "" && p.name != "" && p.code != "" && p.category != ""
    ensures SaveForm(p, freshId) == Some(p)
  {
  }

  /** Saving is idempotent: a saved record saves to itself. */
  lemma SaveIdempotent(form: Profession, freshId: string, otherId: string)
    requires SaveForm(form, freshId).Some? && freshId != ""
    ensures SaveForm(SaveForm(form, freshId).value, otherId) == SaveForm(form, freshId)
  {
  }
}
