/**
 * The skill browser (SkillsPage.tsx): the category and level filters it
 * passes to the listing, the case-insensitive text search it applies on top,
 * and what the page shows.
 */
module SkillsPage {
  import opened Wrappers
  import opened Seqs
  import opened Text
  import opened Skills

  /** The search test: the lower-cased term occurs in the lower-cased title or description. */
  predicate Matches(s: Skill, term: string) {
    Contains(ToLower(s.title), ToLower(term)) || Contains(ToLower(s.description), ToLower(term))
  }

  /** `filteredSkills`: the listed skills the search term matches, in listing order. */
  function FilteredSkills(skills: seq<Skill>, term: string): (r: seq<Skill>)
    ensures forall s :: s in r <==> s in skills && Matches(s, term)
    ensures Subsequence(r, skills)
  {
    var p := (s: Skill) => Matches(s, term);
    forall s ensures s in Filter(skills, p) <==> s in skills && Matches(s, term) {
      FilterMembership(skills, p, s);
    }
    FilterIsSubsequence(skills, p);
    Filter(skills, p)
  }

  /** An empty search term keeps every listed skill. */
  lemma EmptyTermKeepsAll(skills: seq<Skill>)
    ensures FilteredSkills(skills, "") == skills
  {
    forall s | s in skills ensures Matches(s, "") {
      ContainsEmpty(ToLower(s.title));
    }
    FilterAll(skills, (s: Skill) => Matches(s, ""));
  }

  /** The search ignores the case of the term. */
  lemma SearchIgnoresCase(skills: seq<Skill>, term: string)
    ensures FilteredSkills(skills, ToLower(term)) == FilteredSkills(skills, term)
  {
    ToLowerIdempotent(term);
    FilterCongruent(skills, (s: Skill) => Matches(s, ToLower(term)), (s: Skill) => Matches(s, term));
  }

  /** Searching "guitar" finds "Guitar Basics" and drops "Piano". */
  lemma SearchExample()
    ensures var guitar := Skill(1, 5, None, "Guitar Basics", "Chords", Beginner, 60, "", 0);
      var piano := Skill(2, 5, None, "Piano", "Scales", Beginner, 60, "", 1);
      FilteredSkills([guitar, piano], "guitar") == [guitar]
  {
    var guitar := Skill(1, 5, None, "Guitar Basics", "Chords", Beginner, 60, "", 0);
    var piano := Skill(2, 5, None, "Piano", "Scales", Beginner, 60, "", 1);
    GuitarMatches(guitar);
    PianoDoesNotMatch(piano);
    FilterFirstOfTwo(guitar, piano, "guitar");
  }

  lemma GuitarMatches(guitar: Skill)
    requires guitar.title == "Guitar Basics"
    ensures Matches(guitar, "guitar")
  {
    assert ToLower("guitar") == "guitar";
    assert OccursAt(ToLower(guitar.title), "guitar", 0);
  }

  lemma PianoDoesNotMatch(piano: Skill)
    requires piano.title == "Piano" && piano.description == "Scales"
    ensures !Matches(piano, "guitar")
  {
    assert ToLower("guitar") == "guitar";
    assert ToLower("Scales") == "scales";
    assert ToLower("Scales")[1..] == "cales";
  }

  /** Of two skills, where only the first matches, the search keeps the first. */
  lemma FilterFirstOfTwo(a: Skill, b: Skill, term: string)
    requires Matches(a, term) && !Matches(b, term)
    ensures FilteredSkills([a, b], term) == [a]
  {
    var p := (s: Skill) => Matches(s, term);
    assert [a, b][1..] == [b] && [b][1..] == [];
    assert Filter([b], p) == [];
    assert Filter([a, b], p) == [a];
  }

  /** What the page renders. */
  datatype Screen =
    | LoadingUser
    | LoginPrompt               // nobody is logged in
    | LoadingSkills
    | NoSkillsFound
    | SkillGrid(cards: seq<Skill>)

  function Render(userLoading: bool, user: Option<ProfileId>, skillsLoading: bool, listed: seq<Skill>, term: string)
    : (v: Screen)
    ensures v == LoadingUser <==> userLoading
    ensures v == LoginPrompt <==> !userLoading && user.None?
    ensures v == LoadingSkills <==> !userLoading && user.Some? && skillsLoading
    ensures v == NoSkillsFound ==> FilteredSkills(listed, term) == []
    ensures v.SkillGrid? ==> v.cards == FilteredSkills(listed, term) && v.cards != []
    ensures !userLoading && user.Some? && !skillsLoading ==> v.SkillGrid? || v == NoSkillsFound
  {
    if userLoading then LoadingUser
    else if user.None? then LoginPrompt
    else if skillsLoading then LoadingSkills
    else
      var cards := FilteredSkills(listed, term);
      if |cards| == 0 then NoSkillsFound else SkillGrid(cards)
  }

  /** The page's three filters; "" and `None` mean "not set". */
  class Page {
    var categoryFilter: Option<CategoryId>
    var levelFilter: string
    var searchTerm: string

    constructor ()
      ensures categoryFilter.None? && levelFilter == "" && searchTerm == ""
    {
      categoryFilter, levelFilter, searchTerm := None, "", "";
    }

    /** The query parameters `useSkills` sends: a filter that is not set is left out. */
    function Query(): SkillQuery
      reads this
    {
      SkillQuery(categoryFilter, levelFilter)
    }

    /** The grid the page shows from the rows of the catalog. */
    function Shown(rows: seq<Skill>): seq<Skill>
      reads this
    {
      FilteredSkills(ListSkills(rows, Query()), searchTerm)
    }

    /** "Clear Filters" is offered while any filter is set. */
    predicate ClearOffered()
      reads this
    {
      categoryFilter.Some? || levelFilter != "" || searchTerm != ""
    }

    method SetSearch(term: string)
      modifies this
      ensures searchTerm == term && Query() == old(Query())
    {
      searchTerm := term;
    }

    method SetCategory(c: CategoryId)
      modifies this
      ensures categoryFilter == Some(c) && levelFilter == old(levelFilter) && searchTerm == old(searchTerm)
      ensures ClearOffered()
    {
      categoryFilter := Some(c);
    }

    /** The level menu offers the three level codes. */
    method SetLevel(l: Level)
      modifies this
      ensures levelFilter == LevelCode(l) && categoryFilter == old(categoryFilter) && searchTerm == old(searchTerm)
      ensures ClearOffered()
    {
      levelFilter := LevelCode(l);
    }

    /** "Clear Filters": afterwards the page shows the whole catalog, newest first. */
    method ClearFilters(rows: seq<Skill>)
      modifies this
      ensures categoryFilter.None? && levelFilter == "" && searchTerm == ""
      ensures !ClearOffered()
      ensures Shown(rows) == Reverse(rows)
    {
      categoryFilter, levelFilter, searchTerm := None, "", "";
      UnfilteredListsAll(rows);
      EmptyTermKeepsAll(Reverse(rows));
    }
  }

  /**
   * Every card on the grid is a catalog skill in the chosen category and at
   * the chosen level whose title or description contains the term.
   */
  lemma ShownSkillsMatchEveryFilter(rows: seq<Skill>, q: SkillQuery, term: string, s: Skill)
    ensures s in FilteredSkills(ListSkills(rows, q), term) <==>
              s in rows && InCategory(s, q.category) && AtLevel(s, q.level) && Matches(s, term)
  {
  }
}
