/**
 * The renderer's tag store: the tag list mirrored from the main process and
 * the ids of the tags selected as a filter.
 *
 * Each store action that calls the main process takes that call's reply as a
 * parameter (or, when the request carries a payload, the main process as a
 * function of the payload): `Ok` is the resolved value, `Err` the rejection.
 * On a rejection the local state is left as it was and the error is passed
 * on to the caller.
 */
module TagStore {
  import opened Wrappers
  import opened Seqs
  import opened Entities
  import opened TagHandlers

  /** The payload `addTag` sends: `{ name: tag.name || '', color: tag.color || '#3B82F6' }`. */
  function TagPayload(tag: TagFields): (p: TagFields)
    ensures p.id.None? && p.createdAt.None?
    ensures p.name.Some? && (tag.name.Some? && tag.name.value != "" ==> p.name.value == tag.name.value)
    ensures p.name.Some? && (tag.name.None? || tag.name.value == "" ==> p.name.value == "")
    ensures p.color.Some? && (tag.color.Some? && tag.color.value != "" ==> p.color.value == tag.color.value)
    ensures p.color.Some? && (tag.color.None? || tag.color.value == "" ==> p.color.value == DefaultColor)
  {
    TagFields(None, Some(Or(tag.name, "")), Some(Or(tag.color, DefaultColor)), None)
  }

  /**
   * Since the payload always carries a name, a tag added through the store
   * without a name is stored with the empty name, never with `add-tag`'s
   * `New Tag` default; its colour is the caller's or the default.
   */
  lemma StoreAddTagNames(tag: TagFields, freshId: string, now: string)
    ensures var t := NewTag(TagPayload(tag), freshId, now);
      && t.id == freshId && t.createdAt == now
      && t.name == Or(tag.name, "")
      && t.color == Or(tag.color, DefaultColor)
  {
  }

  /** `toggleTag(id)` on the selection: remove the first occurrence, or append. */
  function Toggled(selection: seq<string>, id: string): seq<string> {
    if id in selection then RemoveFirst(selection, id) else selection + [id]
  }

  /** The `selectedTags` computed value: the selected tags, in tag order. */
  function Selected(tags: seq<Tag>, selection: seq<string>): seq<Tag> {
    Filter(tags, (t: Tag) => t.id in selection)
  }

  /** Toggling an unselected id appends it at the end; toggling a selected one removes its first occurrence only. */
  lemma ToggleAppendsOrRemovesFirst(selection: seq<string>, id: string)
    ensures id !in selection ==> Toggled(selection, id) == selection + [id]
    ensures id in selection ==>
      var i := IndexOf(selection, id);
      Toggled(selection, id) == selection[..i] + selection[i + 1..]
  {
  }

  /** Toggling an unselected id twice restores the selection. */
  lemma ToggleTwiceRestores(selection: seq<string>, id: string)
    requires id !in selection
    ensures Toggled(Toggled(selection, id), id) == selection
  {
    var once := selection + [id];
    assert id in once;
    assert once[..|selection|] == selection;
    assert IndexOf(once, id) == |selection| by {
      var i := IndexOf(once, id);
      assert once[i] == id;
    }
  }

  /**
   * With a duplicate-free selection, toggling flips the membership of `id`,
   * keeps the membership of every other id, and keeps the selection
   * duplicate-free.
   */
  lemma ToggleFlipsOnlyId(selection: seq<string>, id: string, other: string)
    requires NoDuplicates(selection)
    ensures id in Toggled(selection, id) <==> id !in selection
    ensures other != id ==> (other in Toggled(selection, id) <==> other in selection)
    ensures NoDuplicates(Toggled(selection, id))
  {
    var r := Toggled(selection, id);
    NoDuplicatesMultiplicity(selection, id);
    NoDuplicatesMultiplicity(selection, other);
    if id in selection {
      var i := IndexOf(selection, id);
      assert r == selection[..i] + selection[i + 1..];
      assert multiset(r)[id] == 0;
      assert other != id ==> multiset(r)[other] == multiset(selection)[other];
      forall a, b | 0 <= a < b < |r| ensures r[a] != r[b] {
        var a' := if a < i then a else a + 1;
        var b' := if b < i then b else b + 1;
        assert r[a] == selection[a'] && r[b] == selection[b'];
      }
    } else {
      assert r == selection + [id];
      forall a, b | 0 <= a < b < |r| ensures r[a] != r[b] {
        if b == |selection| {
          assert r[a] == selection[a];
        }
      }
    }
  }

  /** A tag is selected-and-listed exactly when it is in the list and its id is selected. */
  lemma SelectedMembership(tags: seq<Tag>, selection: seq<string>, t: Tag)
    ensures t in Selected(tags, selection) <==> t in tags && t.id in selection
    ensures IsSubsequence(Selected(tags, selection), tags)
  {
    FilterMember(tags, (t: Tag) => t.id in selection, t);
    FilterIsSubsequence(tags, (t: Tag) => t.id in selection);
  }

  /** The local part of `deleteTag`: the id is gone from both lists and every other entry stays. */
  lemma DeleteRemovesEverywhere(tags: seq<Tag>, selection: seq<string>, id: string, t: Tag, other: string)
    ensures t in Filter(tags, TagLacksId(id)) <==> t in tags && t.id != id
    ensures other in Filter(selection, IsNot(id)) <==> other in selection && other != id
  {
    FilterMember(tags, TagLacksId(id), t);
    FilterMember(selection, IsNot(id), other);
  }

  class TagState {
    var tags: seq<Tag>
    var selectedTagIds: seq<string>

    constructor ()
      ensures tags == [] && selectedTagIds == []
    {
      tags, selectedTagIds := [], [];
    }

    /** `fetchTags`: a rejection is reported and swallowed. */
    method FetchTags(reply: Result<seq<Tag>>)
      modifies this`tags
      ensures reply.Ok? ==> tags == reply.value
      ensures reply.Err? ==> tags == old(tags)
    {
      if reply.Ok? {
        tags := reply.value;
      }
    }

    /** `addTag`: the reply to the payload is appended to the list. */
    method AddTag(tag: TagFields, addTag: TagFields -> Result<Tag>) returns (r: Result<Tag>)
      modifies this`tags
      ensures r == addTag(TagPayload(tag))
      ensures r.Ok? ==> tags == old(tags) + [r.value]
      ensures r.Err? ==> tags == old(tags)
    {
      var tagData := TagPayload(tag);
      r := addTag(tagData);
      if r.Ok? {
        tags := tags + [r.value];
      }
    }

    /** `deleteTag`: once the main process succeeds, the id leaves both lists. */
    method DeleteTag(id: string, reply: Result<()>) returns (r: Result<()>)
      modifies this`tags, this`selectedTagIds
      ensures r == reply
      ensures reply.Ok? ==> tags == Filter(old(tags), TagLacksId(id))
      ensures reply.Ok? ==> selectedTagIds == Filter(old(selectedTagIds), IsNot(id))
      ensures reply.Err? ==> tags == old(tags) && selectedTagIds == old(selectedTagIds)
    {
      r := reply;
      if reply.Ok? {
        tags := Filter(tags, TagLacksId(id));
        selectedTagIds := Filter(selectedTagIds, IsNot(id));
      }
    }

    method ToggleTag(id: string)
      modifies this`selectedTagIds
      ensures selectedTagIds == Toggled(old(selectedTagIds), id)
    {
      var index := IndexOf(selectedTagIds, id);
      if index > -1 {
        selectedTagIds := RemoveAt(selectedTagIds, index);
      } else {
        selectedTagIds := selectedTagIds + [id];
      }
    }

    /** `clearTags` empties the selection only. */
    method ClearTags()
      modifies this`selectedTagIds
      ensures selectedTagIds == []
    {
      selectedTagIds := [];
    }

    /** `updateTag`: the reply replaces the first tag with the id, if any. */
    method UpdateTag(id: string, reply: Result<Tag>) returns (r: Result<()>)
      modifies this`tags
      ensures reply.Ok? ==> r == Ok(()) && tags == ReplaceFirstWhere(old(tags), TagHasId(id), reply.value)
      ensures reply.Err? ==> r == Err(reply.message) && tags == old(tags)
    {
      if reply.Err? {
        return Err(reply.message);
      }
      var index := FindIndex(tags, TagHasId(id));
      if index > -1 {
        tags := tags[index := reply.value];
      }
      r := Ok(());
    }

    function SelectedTags(): seq<Tag>
      reads this
    {
      Selected(tags, selectedTagIds)
    }

    /** `clearAllTags` empties both lists once the main process succeeds. */
    method ClearAllTags(reply: Result<()>) returns (r: Result<()>)
      modifies this`tags, this`selectedTagIds
      ensures r == reply
      ensures reply.Ok? ==> tags == [] && selectedTagIds == []
      ensures reply.Err? ==> tags == old(tags) && selectedTagIds == old(selectedTagIds)
    {
      r := reply;
      if reply.Ok? {
        tags, selectedTagIds := [], [];
      }
    }
  }
}
