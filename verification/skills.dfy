/**
 * The skill catalog of the backend (skills/models.py and skills/views.py):
 * the filtered, newest-first listing, the owner's own listing, and the rule
 * that only a skill's mentor may change or remove it.
 */
module Skills {
  import opened Wrappers
  import opened Seqs
  import Text

  type ProfileId = nat
  type SkillId = nat
  type CategoryId = nat

  datatype Level = Beginner | Intermediate | Advanced

  /** The stored code of a level, as kept in the 15-character `level` column. */
  function LevelCode(l: Level): (code: string)
    ensures 0 < |code| <= 15
  {
    match l
    case Beginner => "BEGINNER"
    case Intermediate => "INTERMEDIATE"
    case Advanced => "ADVANCED"
  }

  /** A stored skill. `category` is `None` once its category has been deleted. */
  datatype Skill = Skill(
    id: SkillId,
    mentor: ProfileId,
    category: Option<CategoryId>,
    title: string,
    description: string,
    level: Level,
    durationMinutes: int,
    tags: string,
    createdAt: int)

  /** The fields a client may write; `mentor` is not among them. */
  datatype SkillFields = SkillFields(
    category: Option<CategoryId>,
    title: string,
    description: string,
    level: Level,
    durationMinutes: int,
    tags: string)

  function CreatedAt(s: Skill): int { s.createdAt }

  /**
   * The query parameters of a listing request. `category` is `None` when the
   * parameter is absent; `level` is the raw text, where "" (absent or empty)
   * means no level filter.
   */
  datatype SkillQuery = SkillQuery(category: Option<CategoryId>, level: string)

  predicate InCategory(s: Skill, category: Option<CategoryId>) {
    category.None? || s.category == category
  }

  predicate AtLevel(s: Skill, level: string) {
    level == "" || LevelCode(s.level) == level
  }

  /**
   * The skill listing: narrowed by category, then by level, newest first.
   */
  function ListSkills(rows: seq<Skill>, q: SkillQuery): (r: seq<Skill>)
    ensures forall s :: s in r <==> s in rows && InCategory(s, q.category) && AtLevel(s, q.level)
    ensures Ascending(rows, CreatedAt) ==> Descending(r, CreatedAt)
  {
    var byCategory := if q.category.Some? then Filter(rows, s => InCategory(s, q.category)) else rows;
    var byLevel := if q.level != "" then Filter(byCategory, s => AtLevel(s, q.level)) else byCategory;
    ListSkillsFacts(rows, q, byCategory, byLevel);
    Reverse(byLevel)
  }

  lemma ListSkillsFacts(rows: seq<Skill>, q: SkillQuery, byCategory: seq<Skill>, byLevel: seq<Skill>)
    requires byCategory == if q.category.Some? then Filter(rows, s => InCategory(s, q.category)) else rows
    requires byLevel == if q.level != "" then Filter(byCategory, s => AtLevel(s, q.level)) else byCategory
    ensures forall s :: s in Reverse(byLevel) <==> s in rows && InCategory(s, q.category) && AtLevel(s, q.level)
    ensures Ascending(rows, CreatedAt) ==> Descending(Reverse(byLevel), CreatedAt)
  {
    forall s ensures s in Reverse(byLevel) <==> s in rows && InCategory(s, q.category) && AtLevel(s, q.level) {
      ReverseMembership(byLevel, s);
      if q.category.Some? { FilterMembership(rows, s => InCategory(s, q.category), s); }
      if q.level != "" { FilterMembership(byCategory, s => AtLevel(s, q.level), s); }
    }
    if Ascending(rows, CreatedAt) {
      if q.category.Some? { FilterAscending(rows, s => InCategory(s, q.category), CreatedAt); }
      if q.level != "" { FilterAscending(byCategory, s => AtLevel(s, q.level), CreatedAt); }
      ReverseDescending(byLevel, CreatedAt);
    }
  }

  /** Without filters the listing is the whole catalog, newest first. */
  lemma {:induction false} UnfilteredListsAll(rows: seq<Skill>)
    ensures ListSkills(rows, SkillQuery(None, "")) == Reverse(rows)
  {
  }

  /** `my_skills`: the requester's own skills, in table order. */
  function MySkills(rows: seq<Skill>, requester: ProfileId): (r: seq<Skill>)
    ensures forall s :: s in r <==> s in rows && s.mentor == requester
    ensures Subsequence(r, rows)
  {
    var r := Filter(rows, (s: Skill) => s.mentor == requester);
    forall s ensures s in r <==> s in rows && s.mentor == requester {
      FilterMembership(rows, (s: Skill) => s.mentor == requester, s);
    }
    FilterIsSubsequence(rows, (s: Skill) => s.mentor == requester);
    r
  }

  /** The first skill with the given id, if any. */
  function FindSkill(rows: seq<Skill>, id: SkillId): (r: Option<Skill>)
    ensures r.Some? ==> r.value in rows && r.value.id == id
    ensures r.None? ==> forall s :: s in rows ==> s.id != id
  {
    if rows == [] then None
    else if rows[0].id == id then Some(rows[0])
    else FindSkill(rows[1..], id)
  }

  datatype SkillError =
    | NotFound             // get_object found no such skill in the request's listing
    | BlankField           // 400: `title` or `description` is empty once stripped
    | FieldTooLong         // 400: stripped `title` or `tags` is over its column's max_length
    | OnlyOwnerCanEdit     // "You can only edit your own skills"
    | OnlyOwnerCanDelete   // "You can only delete your own skills"

  /** The `max_length` of the `title` and `tags` columns, which the serializer enforces. */
  const TitleMaxLength := 200
  const TagsMaxLength := 500

  /**
   * `SkillSerializer`'s validation of the writable fields. `title` and
   * `description` are required character fields: stripped, and refused when
   * nothing is left. `tags` allows blanks and is stripped. The stripped
   * `title` and `tags` must fit their columns. The category, level and
   * duration are kept as given. Every refusal is the same 400 reply; a blank
   * field is reported before a long one.
   */
  function CheckFields(f: SkillFields): (r: Result<SkillFields, SkillError>)
    ensures r == Err(BlankField) <==> Text.Blank(f.title) || Text.Blank(f.description)
    ensures r == Err(FieldTooLong) <==>
              !Text.Blank(f.title) && !Text.Blank(f.description)
              && (|Text.Trim(f.title)| > TitleMaxLength || |Text.Trim(f.tags)| > TagsMaxLength)
    ensures r.Err? ==> r.error in {BlankField, FieldTooLong}
    ensures r.Ok? ==> r.value.title == Text.Trim(f.title) && 0 < |r.value.title| <= TitleMaxLength
    ensures r.Ok? ==> r.value.description == Text.Trim(f.description) && r.value.description != ""
    ensures r.Ok? ==> r.value.tags == Text.Trim(f.tags) && |r.value.tags| <= TagsMaxLength
    ensures r.Ok? ==> r.value.category == f.category && r.value.level == f.level
                      && r.value.durationMinutes == f.durationMinutes
  {
    Text.TrimEmptyIffBlank(f.title);
    Text.TrimEmptyIffBlank(f.description);
    if Text.Blank(f.title) || Text.Blank(f.description) then Err(BlankField)
    else if |Text.Trim(f.title)| > TitleMaxLength || |Text.Trim(f.tags)| > TagsMaxLength then Err(FieldTooLong)
    else Ok(f.(title := Text.Trim(f.title), description := Text.Trim(f.description), tags := Text.Trim(f.tags)))
  }

  /** Sending back the fields a skill was stored with is accepted and stores them unchanged. */
  lemma CheckFieldsIdempotent(f: SkillFields)
    requires CheckFields(f).Ok?
    ensures CheckFields(CheckFields(f).value) == CheckFields(f)
  {
    var g := CheckFields(f).value;
    Text.TrimIdempotent(f.title);
    Text.TrimIdempotent(f.description);
    Text.TrimIdempotent(f.tags);
    Text.TrimEmptyIffBlank(g.title);
    Text.TrimEmptyIffBlank(g.description);
  }

  /** The row with `s.id` replaced by `s`; every other row kept. */
  function ReplaceSkill(rows: seq<Skill>, s: Skill): (r: seq<Skill>)
    ensures |r| == |rows|
    ensures forall i :: 0 <= i < |rows| ==> r[i] == if rows[i].id == s.id then s else rows[i]
  {
    seq(|rows|, i requires 0 <= i < |rows| => if rows[i].id == s.id then s else rows[i])
  }

  /** The rows whose id differs from `id`. */
  function RemoveSkill(rows: seq<Skill>, id: SkillId): (r: seq<Skill>)
    ensures forall s :: s in r <==> s in rows && s.id != id
  {
    var r := Filter(rows, (s: Skill) => s.id != id);
    forall s ensures s in r <==> s in rows && s.id != id {
      FilterMembership(rows, (s: Skill) => s.id != id, s);
    }
    r
  }

  /** Ids are distinct and below `nextId`; rows are in creation order. */
  ghost predicate WellFormed(rows: seq<Skill>, nextId: nat) {
    && (forall i :: 0 <= i < |rows| ==> rows[i].id < nextId)
    && (forall i, j :: 0 <= i < j < |rows| ==> rows[i].id != rows[j].id)
    && Ascending(rows, CreatedAt)
  }

  /** The `Skill` table, updated in place by the view's create, update and destroy. */
  class SkillTable {
    var rows: seq<Skill>
    var nextId: nat

    ghost predicate Valid()
      reads this
    {
      WellFormed(rows, nextId)
    }

    constructor ()
      ensures Valid() && rows == []
    {
      rows := [];
      nextId := 1;
    }

    /**
     * `create`: the serializer validates the fields, then `perform_create`
     * saves them with the requester as mentor, whatever the payload holds.
     * `now` stands for the clock, which never runs backwards.
     */
    method Create(requester: ProfileId, fields: SkillFields, now: int) returns (r: Result<Skill, SkillError>)
      requires Valid()
      requires forall i :: 0 <= i < |rows| ==> rows[i].createdAt <= now
      modifies this
      ensures Valid()
      ensures r.Ok? <==> CheckFields(fields).Ok?
      ensures r.Err? ==> r == Err(CheckFields(fields).error) && rows == old(rows)
      ensures r.Ok? ==> r.value.mentor == requester && r.value.createdAt == now
      ensures r.Ok? ==> var g := CheckFields(fields).value;
                        && r.value.title == g.title && r.value.description == g.description
                        && r.value.category == g.category && r.value.level == g.level
                        && r.value.durationMinutes == g.durationMinutes && r.value.tags == g.tags
      ensures r.Ok? ==> r.value.id !in set t | t in old(rows) :: t.id
      ensures r.Ok? ==> rows == old(rows) + [r.value]
    {
      var checked := CheckFields(fields);
      if checked.Err? {
        return Err(checked.error);
      }
      var g := checked.value;
      var s := Skill(nextId, requester, g.category, g.title, g.description,
                     g.level, g.durationMinutes, g.tags, now);
      AscendingAppend(rows, s, CreatedAt);
      rows := rows + [s];
      nextId := nextId + 1;
      r := Ok(s);
    }

    /**
     * `update`: the skill is looked up in the request's listing, the
     * serializer validates the fields, and `perform_update` lets only the
     * skill's mentor save them. Mentor, id and creation time stay.
     */
    method Update(requester: ProfileId, id: SkillId, q: SkillQuery, fields: SkillFields)
      returns (r: Result<Skill, SkillError>)
      requires Valid()
      modifies this
      ensures Valid() && nextId == old(nextId)
      ensures FindSkill(ListSkills(old(rows), q), id).None? <==> r == Err(NotFound)
      ensures r.Err? ==> rows == old(rows)
      ensures r.Err? ==> r.error in {NotFound, BlankField, FieldTooLong, OnlyOwnerCanEdit}
      ensures r.Err? && r.error in {BlankField, FieldTooLong} <==>
                (FindSkill(ListSkills(old(rows), q), id).Some? && CheckFields(fields).Err?)
      ensures FindSkill(ListSkills(old(rows), q), id).Some? && CheckFields(fields).Err? ==>
                r == Err(CheckFields(fields).error)
      ensures r == Err(OnlyOwnerCanEdit) <==>
                (FindSkill(ListSkills(old(rows), q), id).Some? && CheckFields(fields).Ok?
                 && FindSkill(ListSkills(old(rows), q), id).value.mentor != requester)
      ensures r.Ok? <==>
                (FindSkill(ListSkills(old(rows), q), id).Some? && CheckFields(fields).Ok?
                 && FindSkill(ListSkills(old(rows), q), id).value.mentor == requester)
      ensures r.Ok? ==> r.value.mentor == requester && r.value.id == id
      ensures r.Ok? ==> var g := CheckFields(fields).value;
                        exists s :: s in old(rows) && s.id == id && s.mentor == requester
                          && r.value == s.(category := g.category, title := g.title,
                                           description := g.description, level := g.level,
                                           durationMinutes := g.durationMinutes, tags := g.tags)
      ensures r.Ok? ==> rows == ReplaceSkill(old(rows), r.value)
    {
      var found := FindSkill(ListSkills(rows, q), id);
      if found.None? {
        return Err(NotFound);
      }
      var checked := CheckFields(fields);
      if checked.Err? {
        return Err(checked.error);
      }
      var g := checked.value;
      var s := found.value;
      if s.mentor != requester {
        return Err(OnlyOwnerCanEdit);
      }
      var s' := s.(category := g.category, title := g.title, description := g.description,
                   level := g.level, durationMinutes := g.durationMinutes, tags := g.tags);
      ReplaceKeepsWellFormed(rows, nextId, s, s');
      rows := ReplaceSkill(rows, s');
      r := Ok(s');
    }

    /** `perform_destroy`: only the skill's mentor may delete it. */
    method Destroy(requester: ProfileId, id: SkillId, q: SkillQuery) returns (r: Result<(), SkillError>)
      requires Valid()
      modifies this
      ensures Valid() && nextId == old(nextId)
      ensures FindSkill(ListSkills(old(rows), q), id).None? <==> r == Err(NotFound)
      ensures r.Err? ==> r.error in {NotFound, OnlyOwnerCanDelete}
      ensures r == Err(OnlyOwnerCanDelete) <==>
                (FindSkill(ListSkills(old(rows), q), id).Some? && FindSkill(ListSkills(old(rows), q), id).value.mentor != requester)
      ensures r.Ok? <==>
                (FindSkill(ListSkills(old(rows), q), id).Some? && FindSkill(ListSkills(old(rows), q), id).value.mentor == requester)
      ensures r.Err? ==> rows == old(rows)
      ensures r.Ok? ==> (exists s :: s in old(rows) && s.id == id && s.mentor == requester)
                        && rows == RemoveSkill(old(rows), id)
    {
      var found := FindSkill(ListSkills(rows, q), id);
      if found.None? {
        return Err(NotFound);
      }
      if found.value.mentor != requester {
        return Err(OnlyOwnerCanDelete);
      }
      RemoveKeepsWellFormed(rows, nextId, id);
      rows := RemoveSkill(rows, id);
      r := Ok(());
    }
  }

  lemma ReplaceKeepsWellFormed(rows: seq<Skill>, nextId: nat, s: Skill, s': Skill)
    requires WellFormed(rows, nextId) && s in rows
    requires s'.id == s.id && s'.createdAt == s.createdAt
    ensures WellFormed(ReplaceSkill(rows, s'), nextId)
  {
    var r := ReplaceSkill(rows, s');
    var k :| 0 <= k < |rows| && rows[k] == s;
    forall i | 0 <= i < |rows| ensures r[i].createdAt == rows[i].createdAt && r[i].id == rows[i].id {
      if rows[i].id == s.id { assert i == k; }
    }
  }

  lemma RemoveKeepsWellFormed(rows: seq<Skill>, nextId: nat, id: SkillId)
    requires WellFormed(rows, nextId)
    ensures WellFormed(RemoveSkill(rows, id), nextId)
  {
    var p := (s: Skill) => s.id != id;
    FilterAscending(rows, p, CreatedAt);
    FilterIsSubsequence(rows, p);
    var r := RemoveSkill(rows, id);
    DistinctIdsSubsequence(r, rows);
  }

  /** A subsequence of rows with distinct ids has distinct ids. */
  lemma {:induction false} DistinctIdsSubsequence(r: seq<Skill>, s: seq<Skill>)
    requires Subsequence(r, s)
    requires forall i, j :: 0 <= i < j < |s| ==> s[i].id != s[j].id
    ensures forall i, j :: 0 <= i < j < |r| ==> r[i].id != r[j].id
    decreases |s|
  {
    if r != [] && s != [] {
      if r[0] == s[0] && Subsequence(r[1..], s[1..]) {
        DistinctIdsSubsequence(r[1..], s[1..]);
        SubsequenceMembers(r[1..], s[1..]);
        forall j | 0 < j < |r| ensures r[0].id != r[j].id {
          assert r[j] in s[1..];
        }
      } else {
        DistinctIdsSubsequence(r, s[1..]);
      }
    }
  }
}
