/** The story record as the server sends it (data/network/response/StoryItem.kt) and its
    translation into the domain record the UI shows (domain/Story.kt). */
module StoryItems {
  import opened Responses

  /** The domain record: every field present, equality structural (a Kotlin data class). */
  datatype Story = Story(id: string, name: string, description: string, photoUrl: string, createdAt: string)

  /** The wire record: every field may be absent. The coordinates are Kotlin `Double?`s that
      nothing downstream reads; they are carried here as reals only so that their irrelevance
      can be stated. */
  datatype StoryItem = StoryItem(
    id: Option<string>,
    photoUrl: Option<string>,
    name: Option<string>,
    description: Option<string>,
    createdAt: Option<string>,
    lon: Option<real>,
    lat: Option<real>)

  /** `StoryItem.asDomain`: each absent text field becomes the empty string. */
  function AsDomain(item: StoryItem): (story: Story)
    ensures item.id.Some? ==> story.id == item.id.value
    ensures item.name.Some? ==> story.name == item.name.value
    ensures item.description.Some? ==> story.description == item.description.value
    ensures item.photoUrl.Some? ==> story.photoUrl == item.photoUrl.value
    ensures item.createdAt.Some? ==> story.createdAt == item.createdAt.value
    ensures item.id.None? ==> story.id == ""
    ensures item.name.None? ==> story.name == ""
    ensures item.description.None? ==> story.description == ""
    ensures item.photoUrl.None? ==> story.photoUrl == ""
    ensures item.createdAt.None? ==> story.createdAt == ""
  {
    Story(
      id := item.id.GetOr(""),
      name := item.name.GetOr(""),
      description := item.description.GetOr(""),
      photoUrl := item.photoUrl.GetOr(""),
      createdAt := item.createdAt.GetOr(""))
  }

  /** `List<StoryItem>.asDomain`: the element-wise translation, keeping length and order. */
  function ListAsDomain(items: seq<StoryItem>): (stories: seq<Story>)
    ensures |stories| == |items|
    ensures forall i :: 0 <= i < |items| ==> stories[i] == AsDomain(items[i])
  {
    if items == [] then [] else [AsDomain(items[0])] + ListAsDomain(items[1..])
  }

  /** An absent wire field yields the empty string in the same-named domain field. */
  lemma AbsentFieldsBecomeEmpty(item: StoryItem)
    ensures item.id.None? ==> AsDomain(item).id == ""
    ensures item.name.None? ==> AsDomain(item).name == ""
    ensures item.description.None? ==> AsDomain(item).description == ""
    ensures item.photoUrl.None? ==> AsDomain(item).photoUrl == ""
    ensures item.createdAt.None? ==> AsDomain(item).createdAt == ""
  {
  }

  /** A present wire field is copied unchanged into the same-named domain field. */
  lemma PresentFieldsAreCopied(item: StoryItem)
    ensures item.id.Some? ==> AsDomain(item).id == item.id.value
    ensures item.name.Some? ==> AsDomain(item).name == item.name.value
    ensures item.description.Some? ==> AsDomain(item).description == item.description.value
    ensures item.photoUrl.Some? ==> AsDomain(item).photoUrl == item.photoUrl.value
    ensures item.createdAt.Some? ==> AsDomain(item).createdAt == item.createdAt.value
  {
  }

  /** Two wire records that differ only in their coordinates translate to the same story. */
  lemma CoordinatesAreIgnored(item: StoryItem, lon: Option<real>, lat: Option<real>)
    ensures AsDomain(item.(lon := lon, lat := lat)) == AsDomain(item)
  {
  }

  /** Translating a concatenation is concatenating the translations. */
  lemma ListAsDomainAppend(xs: seq<StoryItem>, ys: seq<StoryItem>)
    ensures ListAsDomain(xs + ys) == ListAsDomain(xs) + ListAsDomain(ys)
  {
  }
}
