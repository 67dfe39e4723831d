/** The list adapter of the story feed (adapter/StoryListAdapter.kt): the two predicates its
    diff callback gives the list differ, and the caption each row shows. */
module StoryListAdapter {
  import opened StoryItems

  /** `DiffCallback.areItemsTheSame`: two stories are the same entity when their ids agree. */
  predicate AreItemsTheSame(oldItem: Story, newItem: Story): (same: bool)
    ensures oldItem == newItem ==> same
    ensures same <==> oldItem.id == newItem.id
  {
    oldItem.id == newItem.id
  }

  /** `DiffCallback.areContentsTheSame`: data-class equality, i.e. all five fields agree;
      unchanged content implies the same entity. */
  function AreContentsTheSame(oldItem: Story, newItem: Story): (same: bool)
    ensures same <==> && oldItem.id == newItem.id
                      && oldItem.name == newItem.name
                      && oldItem.description == newItem.description
                      && oldItem.photoUrl == newItem.photoUrl
                      && oldItem.createdAt == newItem.createdAt
    ensures same ==> AreItemsTheSame(oldItem, newItem)
  {
    oldItem == newItem
  }

  /** Both predicates are reflexive and symmetric. */
  lemma DiffPredicatesReflexiveSymmetric(a: Story, b: Story)
    ensures AreItemsTheSame(a, a) && AreContentsTheSame(a, a)
    ensures AreItemsTheSame(a, b) <==> AreItemsTheSame(b, a)
    ensures AreContentsTheSame(a, b) <==> AreContentsTheSame(b, a)
  {
  }

  /** A story whose id is kept but some other field changed is the same item with changed content. */
  lemma ChangedStoryIsSameItem(a: Story, b: Story)
    requires a.id == b.id && a != b
    ensures AreItemsTheSame(a, b) && !AreContentsTheSame(a, b)
  {
  }

  /** The only style the caption uses. */
  datatype SpanStyle = Bold

  /** A style applied to the half-open range [start, end) of a text. Every span here is set
      with SPAN_EXCLUSIVE_EXCLUSIVE: text inserted at either end is not taken into it. */
  datatype Span = Span(style: SpanStyle, start: nat, end: nat)

  /** A text with its style spans, as a bound view shows it. */
  datatype Caption = Caption(text: string, spans: seq<Span>)

  /** Whether position k of the caption lies inside some bold span. */
  predicate IsBoldAt(caption: Caption, k: nat) {
    exists i :: 0 <= i < |caption.spans| && caption.spans[i].style == Bold
                && caption.spans[i].start <= k < caption.spans[i].end
  }

  /** The mutable text buffer `bind` fills in place (Android's SpannableStringBuilder,
      restricted to the two calls the adapter makes). */
  class SpannableStringBuilder {
    var text: string
    var spans: seq<Span>

    /** Every span lies within the text. */
    ghost predicate Valid()
      reads this
    {
      forall i :: 0 <= i < |spans| ==> spans[i].start <= spans[i].end <= |text|
    }

    constructor ()
      ensures Valid() && text == [] && spans == []
    {
      text := [];
      spans := [];
    }

    /** `append`: text grows at the end; exclusive-exclusive spans ending there do not grow. */
    method Append(s: string)
      requires Valid()
      modifies this
      ensures Valid()
      ensures text == old(text) + s && spans == old(spans)
    {
      text := text + s;
    }

    /** `setSpan(what, start, end, SPAN_EXCLUSIVE_EXCLUSIVE)` on a range inside the text. */
    method SetSpan(style: SpanStyle, start: nat, end: nat)
      requires Valid() && start <= end <= |text|
      modifies this
      ensures Valid()
      ensures text == old(text) && spans == old(spans) + [Span(style, start, end)]
    {
      spans := spans + [Span(style, start, end)];
    }
  }

  /** The caption `StoryViewHolder.bind` builds: the name in bold, a space, the description. */
  method BindCaption(story: Story) returns (caption: Caption)
    ensures caption.text == story.name + " " + story.description
    ensures caption.spans == [Span(Bold, 0, |story.name|)]
    ensures forall k :: 0 <= k < |caption.text| ==> (IsBoldAt(caption, k) <==> k < |story.name|)
  {
    var builder := new SpannableStringBuilder();
    builder.Append(story.name);
    builder.SetSpan(Bold, 0, |story.name|);
    builder.Append(" ");
    builder.Append(story.description);
    caption := Caption(builder.text, builder.spans);
    forall k | 0 <= k < |caption.text|
      ensures IsBoldAt(caption, k) <==> k < |story.name|
    {
      if k < |story.name| {
        assert caption.spans[0].start <= k < caption.spans[0].end;
      }
    }
  }
}
