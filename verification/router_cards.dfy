/**
 * The router's view of downstream agents: agent cards registered by name, the
 * `"key:value"` skill tags parsed into a dictionary, and the first-match scan
 * that picks a card for an agent type (and, for tenant-scoped types, a tenant).
 */
module RouterCards {
  import opened Wrappers
  import opened Text

  /** A skill advertised on a card; `tags` are strings such as `"type:weather"`. */
  datatype Skill = Skill(id: string, name: string, description: string, tags: Option<seq<string>>)

  /**
   * An agent card with the two extension fields the router reads:
   * `security` (a dictionary, absent or possibly empty) and the skills' tags.
   */
  datatype AgentCard = AgentCard(
    name: string,
    url: string,
    description: string,
    skills: Option<seq<Skill>>,
    security: Option<map<string, string>>)

  /**
   * The registry `self.cards`: a Python dictionary keyed by card name, kept
   * here as its values in insertion order. Keys of a dictionary are distinct.
   */
  type Registry = seq<AgentCard>

  predicate UniqueNames(cards: Registry) {
    forall i, j :: 0 <= i < j < |cards| ==> cards[i].name != cards[j].name
  }

  /** `name in self.cards`. */
  predicate HasName(cards: Registry, name: string) {
    exists i :: 0 <= i < |cards| && cards[i].name == name
  }

  /**
   * `self.cards[card.name] = card`: a new name is appended at the end; a name
   * already present gets the new card in the position it already had.
   */
  function Register(cards: Registry, card: AgentCard): (r: Registry)
    requires UniqueNames(cards)
    ensures UniqueNames(r)
    ensures forall name :: HasName(r, name) <==> HasName(cards, name) || name == card.name
    ensures !HasName(cards, card.name) ==> r == cards + [card]
    ensures HasName(cards, card.name) ==> |r| == |cards|
    ensures HasName(cards, card.name) ==>
      forall i :: 0 <= i < |cards| ==> r[i] == (if cards[i].name == card.name then card else cards[i])
  {
    if |cards| == 0 then
      assert [card][0].name == card.name;
      [card]
    else
      HasNameCons(cards[0], cards[1..]);
      UniqueTail(cards);
      if cards[0].name == card.name then
        HasNameCons(card, cards[1..]);
        UniqueCons(card, cards[1..]);
        [card] + cards[1..]
      else
        var rest := Register(cards[1..], card);
        HasNameCons(cards[0], rest);
        UniqueCons(cards[0], rest);
        [cards[0]] + rest
  }

  /** A name is in `[c] + rest` when it is `c`'s or is in `rest`. */
  lemma HasNameCons(c: AgentCard, rest: Registry)
    ensures forall name :: HasName([c] + rest, name) <==> name == c.name || HasName(rest, name)
  {
    var r := [c] + rest;
    assert r[0].name == c.name;
    forall name | HasName(rest, name)
      ensures HasName(r, name)
    {
      var i :| 0 <= i < |rest| && rest[i].name == name;
      assert r[i + 1].name == name;
    }
    forall name | HasName(r, name) && name != c.name
      ensures HasName(rest, name)
    {
      var i :| 0 <= i < |r| && r[i].name == name;
      assert rest[i - 1].name == name;
    }
  }

  /** The cards after the first have distinct names, none of them the first's. */
  lemma UniqueTail(cards: Registry)
    requires |cards| > 0 && UniqueNames(cards)
    ensures UniqueNames(cards[1..]) && !HasName(cards[1..], cards[0].name)
    ensures cards == [cards[0]] + cards[1..]
  {
    forall i | 0 <= i < |cards| - 1
      ensures cards[1..][i].name != cards[0].name
    {
      assert cards[1..][i] == cards[i + 1];
    }
  }

  /** Putting a card with a fresh name in front keeps the names distinct. */
  lemma UniqueCons(c: AgentCard, rest: Registry)
    requires UniqueNames(rest) && !HasName(rest, c.name)
    ensures UniqueNames([c] + rest)
  {
    var r := [c] + rest;
    forall i, j | 0 <= i < j < |r|
      ensures r[i].name != r[j].name
    {
      if i == 0 {
        assert rest[j - 1].name == r[j].name;
      } else {
        assert r[i] == rest[i - 1] && r[j] == rest[j - 1];
      }
    }
  }

  /** A name is in `init + [c]` when it is in `init` or is `c`'s. */
  lemma HasNameSnoc(init: seq<AgentCard>, c: AgentCard)
    ensures forall name :: HasName(init + [c], name) <==> HasName(init, name) || name == c.name
  {
    var l := init + [c];
    assert l[|init|].name == c.name;
    forall name | HasName(init, name)
      ensures HasName(l, name)
    {
      var i :| 0 <= i < |init| && init[i].name == name;
      assert l[i].name == name;
    }
    forall name | HasName(l, name) && name != c.name
      ensures HasName(init, name)
    {
      var i :| 0 <= i < |l| && l[i].name == name;
      assert init[i].name == name;
    }
  }

  /**
   * The registration loop of the router's initialisation: every card of the
   * fetched list, in list order, registered into an initially empty dictionary.
   */
  function RegisterAll(list: seq<AgentCard>): (r: Registry)
    ensures UniqueNames(r)
    ensures forall name :: HasName(r, name) <==> HasName(list, name)
  {
    if |list| == 0 then []
    else
      var prefix := list[..|list| - 1];
      HasNameSnoc(prefix, list[|list| - 1]);
      assert list == prefix + [list[|list| - 1]];
      Register(RegisterAll(prefix), list[|list| - 1])
  }

  /** No card after position `j` of the list has the name of the card at `j`. */
  predicate LastOfName(list: seq<AgentCard>, j: int)
    requires 0 <= j < |list|
  {
    forall k :: j < k < |list| ==> list[k].name != list[j].name
  }

  /** Each registered card is the LAST card of the list bearing its name. */
  lemma {:induction false} RegisterAllLastWins(list: seq<AgentCard>, i: int)
    requires 0 <= i < |RegisterAll(list)|
    ensures exists j :: 0 <= j < |list| && list[j] == RegisterAll(list)[i] && LastOfName(list, j)
  {
    assert |list| > 0;
    var n := |list|;
    var prefix := list[..n - 1];
    var last := list[n - 1];
    var before := RegisterAll(prefix);
    var r := RegisterAll(list);
    assert r == Register(before, last);
    if r[i] == last {
      assert LastOfName(list, n - 1);
    } else {
      OldEntryKept(before, last, i);
      RegisterAllLastWins(prefix, i);
      var j :| 0 <= j < |prefix| && prefix[j] == before[i] && LastOfName(prefix, j);
      LastOfNameSnoc(list, j);
    }
  }

  /** A last-of-its-name entry of the list without its final card, whose name differs, is last in the list. */
  lemma LastOfNameSnoc(list: seq<AgentCard>, j: int)
    requires 0 <= j < |list| - 1 && LastOfName(list[..|list| - 1], j)
    requires list[j].name != list[|list| - 1].name
    ensures LastOfName(list, j) && list[..|list| - 1][j] == list[j]
  {
    var prefix := list[..|list| - 1];
    forall k | j < k < |list|
      ensures list[k].name != list[j].name
    {
      if k < |prefix| {
        assert list[k] == prefix[k];
      }
    }
  }

  /** An entry that registering `card` leaves in place was already there, and has another name. */
  lemma OldEntryKept(cards: Registry, card: AgentCard, i: int)
    requires UniqueNames(cards)
    requires 0 <= i < |Register(cards, card)| && Register(cards, card)[i] != card
    ensures i < |cards| && Register(cards, card)[i] == cards[i] && cards[i].name != card.name
  {
    if !HasName(cards, card.name) {
      assert Register(cards, card) == cards + [card];
    }
  }

  /** The pair a tag stands for: `tag.split(":", 1)` when the tag has a colon. */
  function Tag(tag: string): Option<(string, string)> {
    SplitFirst(tag, ':')
  }

  /** The key a tag defines, if it has one. */
  function TagKey(tag: string): Option<string> {
    if Tag(tag).Some? then Some(Tag(tag).value.0) else None
  }

  /** No tag after position `i` defines `key`. */
  predicate LastTag(tags: seq<string>, i: int, key: string)
    requires 0 <= i < |tags|
  {
    forall j :: i < j < |tags| ==> TagKey(tags[j]) != Some(key)
  }

  /**
   * `d` is the dictionary the tags describe: its keys are exactly the keys the
   * tags define, and each key maps to the value of the last tag defining it.
   */
  ghost predicate Describes(tags: seq<string>, d: map<string, string>) {
    && (forall k :: k in d <==> exists i :: 0 <= i < |tags| && TagKey(tags[i]) == Some(k))
    && (forall k :: k in d ==> exists i :: 0 <= i < |tags| && Tag(tags[i]) == Some((k, d[k])) && LastTag(tags, i, k))
  }

  /** One step of the loop over the tags: a tag with a colon sets its key. */
  function AddTag(d: map<string, string>, tag: string): map<string, string> {
    match Tag(tag)
    case None => d
    case Some(kv) => d[kv.0 := kv.1]
  }

  /**
   * `skill_tags_dict`: tags without a colon are ignored, and a later tag with
   * the same key overwrites an earlier one.
   */
  function ParseTags(tags: seq<string>): (d: map<string, string>)
    ensures Describes(tags, d)
  {
    if |tags| == 0 then map[]
    else
      var prefix := tags[..|tags| - 1];
      assert tags == prefix + [tags[|tags| - 1]];
      AddTagDescribes(prefix, tags[|tags| - 1], ParseTags(prefix));
      AddTag(ParseTags(prefix), tags[|tags| - 1])
  }

  /** The loop step keeps the dictionary describing the tags seen so far. */
  lemma AddTagDescribes(tags: seq<string>, tag: string, d: map<string, string>)
    requires Describes(tags, d)
    ensures Describes(tags + [tag], AddTag(d, tag))
  {
    AddTagKeys(tags, tag, d);
    AddTagValues(tags, tag, d);
  }

  lemma AddTagKeys(tags: seq<string>, tag: string, d: map<string, string>)
    requires forall k :: k in d <==> exists i :: 0 <= i < |tags| && TagKey(tags[i]) == Some(k)
    ensures var all := tags + [tag];
      forall k :: k in AddTag(d, tag) <==> exists i :: 0 <= i < |all| && TagKey(all[i]) == Some(k)
  {
    var all := tags + [tag];
    var n := |tags|;
    forall k | k in AddTag(d, tag)
      ensures exists i :: 0 <= i < |all| && TagKey(all[i]) == Some(k)
    {
      if TagKey(tag) == Some(k) {
        assert TagKey(all[n]) == Some(k);
      } else {
        var i :| 0 <= i < n && TagKey(tags[i]) == Some(k);
        assert all[i] == tags[i];
      }
    }
    forall k | exists i :: 0 <= i < |all| && TagKey(all[i]) == Some(k)
      ensures k in AddTag(d, tag)
    {
      var i :| 0 <= i < |all| && TagKey(all[i]) == Some(k);
      if i < n {
        assert all[i] == tags[i];
      }
    }
  }

  lemma AddTagValues(tags: seq<string>, tag: string, d: map<string, string>)
    requires forall k :: k in d ==> exists i :: 0 <= i < |tags| && Tag(tags[i]) == Some((k, d[k])) && LastTag(tags, i, k)
    ensures var all := tags + [tag]; var d' := AddTag(d, tag);
      forall k :: k in d' ==> exists i :: 0 <= i < |all| && Tag(all[i]) == Some((k, d'[k])) && LastTag(all, i, k)
  {
    var all := tags + [tag];
    var d' := AddTag(d, tag);
    var n := |tags|;
    forall k | k in d'
      ensures exists i :: 0 <= i < |all| && Tag(all[i]) == Some((k, d'[k])) && LastTag(all, i, k)
    {
      if TagKey(tag) == Some(k) {
        assert all[n] == tag;
        assert LastTag(all, n, k);
      } else {
        var i :| 0 <= i < n && Tag(tags[i]) == Some((k, d[k])) && LastTag(tags, i, k);
        assert all[i] == tags[i];
        assert forall j :: i < j < n ==> all[j] == tags[j];
        assert LastTag(all, i, k);
      }
    }
  }

  /** `filter.items() <= tags.items()`: every pair of the filter is in the tags. */
  predicate Superset(filter: map<string, string>, tags: map<string, string>) {
    forall k :: k in filter ==> k in tags && tags[k] == filter[k]
  }

  /** The inner test of the scan: the skill has tags, and they cover the filter. */
  predicate SkillMatches(skill: Skill, filter: map<string, string>) {
    skill.tags.Some? && |skill.tags.value| > 0 && Superset(filter, ParseTags(skill.tags.value))
  }

  /** Whether some skill of the list matches, scanning in order. */
  function AnySkillMatches(skills: seq<Skill>, filter: map<string, string>): (b: bool)
    ensures b <==> exists s :: 0 <= s < |skills| && SkillMatches(skills[s], filter)
  {
    if |skills| == 0 then false
    else
      SkillMatches(skills[0], filter) || AnySkillMatches(skills[1..], filter)
  }

  /** A card is selected when it has skills and one of them matches. */
  predicate CardMatches(card: AgentCard, filter: map<string, string>) {
    card.skills.Some? && |card.skills.value| > 0 && AnySkillMatches(card.skills.value, filter)
  }

  /** Card `i` matches and no earlier card does. */
  predicate FirstMatch(cards: Registry, filter: map<string, string>, i: int) {
    0 <= i < |cards| && CardMatches(cards[i], filter)
    && forall j :: 0 <= j < i ==> !CardMatches(cards[j], filter)
  }

  /** The scan over the registry: the first card, in registration order, that matches. */
  function FindCard(cards: Registry, filter: map<string, string>): (r: Option<AgentCard>)
    ensures r.Some? <==> exists i :: 0 <= i < |cards| && CardMatches(cards[i], filter)
    ensures r.Some? ==> exists i :: FirstMatch(cards, filter, i) && cards[i] == r.value
  {
    if |cards| == 0 then None
    else if CardMatches(cards[0], filter) then
      assert FirstMatch(cards, filter, 0);
      Some(cards[0])
    else
      var r := FindCard(cards[1..], filter);
      assert r.Some? ==> exists i :: FirstMatch(cards, filter, i) && cards[i] == r.value by {
        if r.Some? {
          var i :| FirstMatch(cards[1..], filter, i) && cards[1..][i] == r.value;
          assert FirstMatch(cards, filter, i + 1);
        }
      }
      r
  }

  /** The agent types whose cards are scoped to a tenant. */
  const TenantSpecificTypes: seq<string> := ["horizon"]

  /**
   * The filter for an agent type: `{type}` for most types, `{type, tenant_id}`
   * for tenant-scoped ones, and nothing at all when such a type is asked for
   * without a tenant in the session.
   */
  function BuildFilter(agentType: string, tenantId: Option<string>): (f: Option<map<string, string>>)
    ensures f.None? <==> agentType in TenantSpecificTypes && !Truthy(tenantId)
    ensures f.Some? ==> "type" in f.value && f.value["type"] == agentType
    ensures f.Some? && agentType in TenantSpecificTypes ==>
      f.value.Keys == {"type", "tenant_id"} && f.value["tenant_id"] == tenantId.value
    ensures f.Some? && agentType !in TenantSpecificTypes ==> f.value.Keys == {"type"}
  {
    if agentType in TenantSpecificTypes then
      if !Truthy(tenantId) then None
      else Some(map["type" := agentType, "tenant_id" := tenantId.value])
    else Some(map["type" := agentType])
  }

  /** `_find_agent_card_by_type`: build the filter, then scan. */
  function FindAgentCardByType(cards: Registry, agentType: string, tenantId: Option<string>): Option<AgentCard> {
    match BuildFilter(agentType, tenantId)
    case None => None
    case Some(filter) => FindCard(cards, filter)
  }

  /** The skill's tags say `type:<agentType>`, and `tenant_id:<tenant>` for a tenant-scoped type. */
  predicate CarriesTags(skill: Skill, agentType: string, tenantId: Option<string>) {
    skill.tags.Some?
    && var d := ParseTags(skill.tags.value);
    "type" in d && d["type"] == agentType
    && (agentType in TenantSpecificTypes ==> tenantId.Some? && "tenant_id" in d && d["tenant_id"] == tenantId.value)
  }

  /**
   * What a found card guarantees: it is registered, it has a skill whose tags
   * carry `type:<agentType>` (and `tenant_id:<tenant>` for a tenant-scoped
   * type), and no earlier card has such a skill.
   */
  lemma FoundCardCarriesTags(cards: Registry, agentType: string, tenantId: Option<string>)
    requires FindAgentCardByType(cards, agentType, tenantId).Some?
    ensures exists i :: (FirstMatch(cards, BuildFilter(agentType, tenantId).value, i)
      && cards[i] == FindAgentCardByType(cards, agentType, tenantId).value)
    ensures var c := FindAgentCardByType(cards, agentType, tenantId).value;
      exists s :: 0 <= s < |c.skills.value| && CarriesTags(c.skills.value[s], agentType, tenantId)
  {
    var c := FindAgentCardByType(cards, agentType, tenantId).value;
    var f := BuildFilter(agentType, tenantId).value;
    assert CardMatches(c, f);
    var s :| 0 <= s < |c.skills.value| && SkillMatches(c.skills.value[s], f);
    assert "type" in f;
  }

  /** A tenant-scoped type asked for without a tenant finds nothing, whatever is registered. */
  lemma TenantRequired(cards: Registry, tenantId: Option<string>)
    requires !Truthy(tenantId)
    ensures FindAgentCardByType(cards, "horizon", tenantId) == None
  {
  }

  /** A tag defining some other key leaves the entry for `k` as it was. */
  lemma ParseTagsAppendOther(tags: seq<string>, tag: string, k: string)
    requires TagKey(tag) != Some(k)
    ensures k in ParseTags(tags + [tag]) <==> k in ParseTags(tags)
    ensures k in ParseTags(tags) ==> ParseTags(tags + [tag])[k] == ParseTags(tags)[k]
  {
    assert (tags + [tag])[..|tags|] == tags;
  }

  /** A tag with a colon sets its key to the text after the first colon, overriding earlier tags. */
  lemma ParseTagsLastWins(tags: seq<string>, key: string, value: string)
    requires ':' !in key
    ensures ParseTags(tags + [key + [':'] + value]) == ParseTags(tags)[key := value]
  {
    var tag := key + [':'] + value;
    SplitFirstUnique(tag, ':', key, value);
    assert (tags + [tag])[..|tags|] == tags;
  }
}
