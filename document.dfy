/**
 * The fetched playlist document that an editing command changes in memory before writing it back,
 * the positional keys the commands give new chapters and tracks, and the display-icon helpers shared
 * by the editors.
 */
module Document {
  import opened Wrappers
  import opened Schemas
  import opened Text
  import opened Sources
  import opened Errors

  /** The card returned by `getContent`, edited in place by one command. */
  class CardDocument {
    var card: Card

    constructor(fetched: Card)
      ensures card == fetched
    {
      card := fetched;
    }

    /** `card.content.chapters` */
    function Chapters(): seq<Chapter>
      reads this
    {
      card.content.chapters
    }
  }

  /** The card with its chapter list replaced and every other property kept. */
  function WithChapters(card: Card, chapters: seq<Chapter>): (r: Card)
    ensures r.content.chapters == chapters
    ensures r.(content := card.content) == card
    ensures r.content.(chapters := card.content.chapters) == card.content
  {
    card.(content := card.content.(chapters := chapters))
  }

  /**
   * The display block holding the 16x16 icon `ref`.  This is both `{ icon16x16: ref }` and, since the
   * display schema has no other property, `{ ...display, icon16x16: ref }`.
   */
  function DisplayFor(ref: string): (r: Field<Display>)
    ensures IconOf(r) == Some(ref)
  {
    Value(Display(Some(ref)))
  }

  /**
   * How an editing command ends: either with an error, nothing written and the fetched card as it
   * was, or with the edited card written back as title, content and metadata.
   */
  predicate Commits(before: Card, after: Card, r: Result<UpdateContentRequest, Error>, expected: Result<Card, Error>) {
    match expected
    case Failure(e) => r == Failure(e) && after == before
    case Success(card) => after == card && r == Success(WriteBack(card))
  }

  // ---------------------------------------------------------------------------------------------
  // Positional keys
  // ---------------------------------------------------------------------------------------------

  /** Every chapter's key is its position, padded to two digits, as `chapter add` and `entry add` give them. */
  ghost predicate ChapterKeysCanonical(chapters: seq<Chapter>) {
    forall i :: 0 <= i < |chapters| ==> chapters[i].key == Key(i)
  }

  /** Every track's key is its 1-based position, padded to two digits, as `track add` gives them. */
  ghost predicate TrackKeysCanonical(tracks: seq<Track>) {
    forall j :: 0 <= j < |tracks| ==> tracks[j].key == Key(j + 1)
  }

  ghost predicate DistinctChapterKeys(chapters: seq<Chapter>) {
    forall i, j :: 0 <= i < j < |chapters| ==> chapters[i].key != chapters[j].key
  }

  /** Keys given by position are pairwise distinct. */
  lemma CanonicalChapterKeysDistinct(chapters: seq<Chapter>)
    requires ChapterKeysCanonical(chapters)
    ensures DistinctChapterKeys(chapters)
  {
    forall i, j | 0 <= i < j < |chapters|
      ensures chapters[i].key != chapters[j].key
    {
      KeyInjective(i, j);
    }
  }

  /** Appending a chapter keyed by the old chapter count keeps the keys positional. */
  lemma AppendKeepsChapterKeys(chapters: seq<Chapter>, chapter: Chapter)
    requires ChapterKeysCanonical(chapters) && chapter.key == Key(|chapters|)
    ensures ChapterKeysCanonical(chapters + [chapter])
  {
    var after := chapters + [chapter];
    forall i | 0 <= i < |after| ensures after[i].key == Key(i) {
      if i < |chapters| {
        assert after[i] == chapters[i];
        assert chapters[i].key == Key(i);
      } else {
        assert i == |chapters|;
        assert after[i] == chapter;
      }
    }
  }

  /** Appending a track keyed by the new track count keeps the keys positional. */
  lemma AppendKeepsTrackKeys(tracks: seq<Track>, track: Track)
    requires TrackKeysCanonical(tracks) && track.key == Key(|tracks| + 1)
    ensures TrackKeysCanonical(tracks + [track])
  {
    var after := tracks + [track];
    forall j | 0 <= j < |after| ensures after[j].key == Key(j + 1) {
      if j < |tracks| {
        assert after[j] == tracks[j];
        assert tracks[j].key == Key(j + 1);
      } else {
        assert j == |tracks|;
        assert after[j] == track;
      }
    }
  }

  /** Deleting any chapter but the last and appending one keyed like the last leaves two equal keys. */
  lemma DeleteThenAppendDuplicates(chapters: seq<Chapter>, i: nat, chapter: Chapter)
    requires i < |chapters| - 1 && chapter.key == chapters[|chapters| - 1].key
    ensures var after := chapters[..i] + chapters[i + 1..] + [chapter];
            !DistinctChapterKeys(after)
  {
    var n := |chapters|;
    var kept := chapters[..i] + chapters[i + 1..];
    var after := kept + [chapter];
    assert |kept| == n - 1;
    assert kept[n - 2] == chapters[n - 1];
    assert after[n - 2] == kept[n - 2];
    assert after[n - 1] == chapter;
    assert after[n - 2].key == after[n - 1].key;
  }

  /**
   * Keys are counts, not fresh names: after deleting any chapter but the last, the next chapter added
   * gets the same key as the chapter that is now last.
   */
  lemma DeleteThenAppendRepeatsKey(chapters: seq<Chapter>, i: nat, chapter: Chapter)
    requires ChapterKeysCanonical(chapters) && i < |chapters| - 1
    requires chapter.key == Key(|chapters| - 1)
    ensures var after := chapters[..i] + chapters[i + 1..] + [chapter];
            !DistinctChapterKeys(after)
  {
    var n := |chapters|;
    assert chapters[n - 1].key == Key(n - 1);
    DeleteThenAppendDuplicates(chapters, i, chapter);
  }

  /** A chapter's single track keyed "01" has the key of position 1. */
  lemma SingleTrackKeyed(track: Track)
    requires track.key == "01"
    ensures TrackKeysCanonical([track])
  {
    FirstKeys();
    assert [track][0] == track;
  }
}
