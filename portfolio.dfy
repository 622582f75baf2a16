/**
 * The portfolio collection's pure operations: committing a draft (admin and
 * guest forms), prepending it, deleting by identifier, and merging a freshly
 * read image into a draft.
 */
module Portfolio {
  import opened Wrappers
  import opened Entities

  /** The label prepended to the title of a guest-submitted case study. */
  const GuestPrefix := "[고객후기] "

  /** The draft both forms start with. */
  function InitialDraft(): (d: Draft)
    ensures !Committable(d)
    ensures d.category == Some("입주청소") && d.majorCategory == Some(Professional)
  {
    Draft(Some(""), Some(""), Some("입주청소"), Some(Professional), Some(""), Some(""))
  }

  /** The draft a form is reset to after a successful add: category and major category are gone. */
  function ResetDraft(): (d: Draft)
    ensures !Committable(d)
    ensures d.category.None? && d.majorCategory.None?
  {
    Draft(Some(""), Some(""), None, None, Some(""), Some(""))
  }

  /** Both forms refuse a draft whose title or either image is missing or empty. */
  predicate Committable(d: Draft) {
    !Falsy(d.title) && !Falsy(d.beforeImg) && !Falsy(d.afterImg)
  }

  /** The item the admin form builds: the draft's fields as they are. */
  function AdminItem(d: Draft, id: string, date: string): (item: PortfolioItem)
    requires Committable(d)
    ensures item.id == id && item.date == date
    ensures item.title == d.title.value && Presentable(item)
    ensures item.majorCategory == d.majorCategory && item.category == d.category
    ensures item.beforeImg == d.beforeImg.value && item.afterImg == d.afterImg.value
    ensures item.description == OrEmpty(d.description)
  {
    PortfolioItem(id, d.title.value, OrEmpty(d.description), d.category, d.majorCategory,
                  d.beforeImg.value, d.afterImg.value, date)
  }

  /** The item the public form builds: marked as a guest review and filed under professional cleaning. */
  function GuestItem(d: Draft, id: string, date: string): (item: PortfolioItem)
    requires Committable(d)
    ensures item.id == id && item.date == date
    ensures item.title == GuestPrefix + d.title.value && Presentable(item)
    ensures item.majorCategory == Some(Professional) && item.category == d.category
    ensures item.beforeImg == d.beforeImg.value && item.afterImg == d.afterImg.value
    ensures item.description == OrEmpty(d.description)
  {
    PortfolioItem(id, GuestPrefix + d.title.value, OrEmpty(d.description), d.category,
                  Some(Professional), d.beforeImg.value, d.afterImg.value, date)
  }

  /** Which of the two forms commits the draft. */
  datatype Author = Admin | Guest

  /** The item the given form builds from a committable draft. */
  function Build(author: Author, d: Draft, id: string, date: string): (item: PortfolioItem)
    requires Committable(d)
    ensures item.id == id && item.date == date && Presentable(item)
    ensures item.category == d.category && item.description == OrEmpty(d.description)
    ensures author == Guest ==> item.majorCategory == Some(Professional)
    ensures author == Admin ==> item.majorCategory == d.majorCategory
  {
    match author
    case Admin => AdminItem(d, id, date)
    case Guest => GuestItem(d, id, date)
  }

  /**
   * The portfolio after a form submits its draft: unchanged when the draft
   * is refused, otherwise the new item in front of every old item in order.
   */
  function Add(portfolio: seq<PortfolioItem>, author: Author, d: Draft, id: string, date: string)
    : (r: seq<PortfolioItem>)
    ensures !Committable(d) ==> r == portfolio
    ensures Committable(d) ==> |r| == |portfolio| + 1 && r[1..] == portfolio
    ensures Committable(d) ==> r[0].id == id && r[0].date == date
    ensures Committable(d) ==> r[0].beforeImg == d.beforeImg.value && r[0].afterImg == d.afterImg.value
    ensures Committable(d) ==> r[0].description == OrEmpty(d.description) && r[0].category == d.category
    ensures Committable(d) && author == Admin ==>
      r[0].title == d.title.value && r[0].majorCategory == d.majorCategory
    ensures Committable(d) && author == Guest ==>
      r[0].title == GuestPrefix + d.title.value && r[0].majorCategory == Some(Professional)
  {
    if Committable(d) then [Build(author, d, id, date)] + portfolio else portfolio
  }

  /**
   * True when `sub` can be obtained from `s` by dropping elements, keeping
   * the order of those that remain.
   */
  predicate Subsequence<T(==)>(sub: seq<T>, s: seq<T>)
    decreases |s|
  {
    if sub == [] then true
    else if s == [] then false
    else if sub[0] == s[0] then Subsequence(sub[1..], s[1..])
    else Subsequence(sub, s[1..])
  }

  /**
   * `portfolio.filter(p => p.id !== id)`: no item with the identifier is
   * left, every other item is kept, in the original order. How many copies
   * of each item are kept is `RemoveCounts`; that nothing changes when the
   * identifier is absent is `RemoveAbsent`.
   */
  function Remove(portfolio: seq<PortfolioItem>, id: string): (r: seq<PortfolioItem>)
    ensures forall p :: p in r <==> p in portfolio && p.id != id
    ensures Subsequence(r, portfolio)
    ensures |r| <= |portfolio|
  {
    if portfolio == [] then []
    else
      var head, tail := portfolio[0], portfolio[1..];
      var rest := Remove(tail, id);
      assert portfolio == [head] + tail;
      if head.id == id then
        assert Subsequence(rest, portfolio) by { SubsequenceOfTail(rest, portfolio); }
        rest
      else
        [head] + rest
  }

  /** A subsequence of the tail is a subsequence of the whole. */
  lemma {:induction false} SubsequenceOfTail<T>(sub: seq<T>, s: seq<T>)
    requires s != [] && Subsequence(sub, s[1..])
    ensures Subsequence(sub, s)
    decreases |s|, |sub|
  {
    if sub != [] && sub[0] == s[0] {
      SubsequenceDropHead(sub, s[1..]);
    }
  }

  /** Dropping the first element of a subsequence leaves a subsequence. */
  lemma {:induction false} SubsequenceDropHead<T>(sub: seq<T>, s: seq<T>)
    requires sub != [] && Subsequence(sub, s)
    ensures Subsequence(sub[1..], s)
    decreases |s|, |sub|
  {
    if sub[0] == s[0] {
      SubsequenceOfTail(sub[1..], s);
    } else {
      SubsequenceDropHead(sub, s[1..]);
      SubsequenceOfTail(sub[1..], s);
    }
  }

  /** Deleting splits over concatenation: each part is filtered on its own. */
  lemma {:induction false} RemoveConcat(a: seq<PortfolioItem>, b: seq<PortfolioItem>, id: string)
    ensures Remove(a + b, id) == Remove(a, id) + Remove(b, id)
  {
    if a == [] {
      assert a + b == b;
    } else {
      var ab := a + b;
      assert ab[0] == a[0] && ab[1..] == a[1..] + b;
      RemoveConcat(a[1..], b, id);
      if a[0].id != id {
        assert [a[0]] + (Remove(a[1..], id) + Remove(b, id))
            == ([a[0]] + Remove(a[1..], id)) + Remove(b, id);
      }
    }
  }

  /**
   * Deleting keeps every copy of every item with another identifier and no
   * copy of an item with the identifier.
   */
  lemma {:induction false} RemoveCounts(portfolio: seq<PortfolioItem>, id: string)
    ensures forall p :: multiset(Remove(portfolio, id))[p] == if p.id == id then 0 else multiset(portfolio)[p]
  {
    if portfolio != [] {
      var head, tail := portfolio[0], portfolio[1..];
      var rest := Remove(tail, id);
      RemoveCounts(tail, id);
      assert portfolio == [head] + tail;
      assert multiset(portfolio) == multiset([head]) + multiset(tail);
      if head.id != id {
        assert multiset([head] + rest) == multiset([head]) + multiset(rest);
      }
    }
  }

  /** Deleting an identifier no item has leaves the portfolio as it was. */
  lemma {:induction false} RemoveAbsent(portfolio: seq<PortfolioItem>, id: string)
    requires id !in Ids(portfolio)
    ensures Remove(portfolio, id) == portfolio
  {
    if portfolio != [] {
      var head, tail := portfolio[0], portfolio[1..];
      assert portfolio == [head] + tail;
      assert Ids(portfolio) == [head.id] + Ids(tail);
      RemoveAbsent(tail, id);
    }
  }

  /** Deleting the same identifier twice is the same as deleting it once. */
  lemma {:induction false} RemoveIdempotent(portfolio: seq<PortfolioItem>, id: string)
    ensures Remove(Remove(portfolio, id), id) == Remove(portfolio, id)
  {
    var r := Remove(portfolio, id);
    assert id !in Ids(r) by {
      forall i | 0 <= i < |r| ensures Ids(r)[i] != id {
        assert r[i] in r;
      }
    }
    RemoveAbsent(r, id);
  }

  /** With unique identifiers, deleting a present identifier removes exactly one item. */
  lemma {:induction false} RemoveUniqueDropsOne(portfolio: seq<PortfolioItem>, id: string)
    requires UniqueIds(portfolio) && id in Ids(portfolio)
    ensures |Remove(portfolio, id)| == |portfolio| - 1
  {
    var tail := portfolio[1..];
    assert Ids(portfolio) == [portfolio[0].id] + Ids(tail);
    if portfolio[0].id == id {
      assert id !in Ids(tail) by {
        forall i | 0 <= i < |tail| ensures Ids(tail)[i] != id {
          assert tail[i] == portfolio[i + 1];
        }
      }
      RemoveAbsent(tail, id);
    } else {
      assert UniqueIds(tail) by {
        forall i, j | 0 <= i < j < |tail| ensures tail[i].id != tail[j].id {
          assert tail[i] == portfolio[i + 1] && tail[j] == portfolio[j + 1];
        }
      }
      RemoveUniqueDropsOne(tail, id);
    }
  }

  /** Deleting an item just added with a fresh identifier restores the portfolio. */
  lemma RemoveUndoesAdd(portfolio: seq<PortfolioItem>, author: Author, d: Draft, id: string, date: string)
    requires id !in Ids(portfolio)
    ensures Remove(Add(portfolio, author, d, id, date), id) == portfolio
  {
    if Committable(d) {
      var added := Add(portfolio, author, d, id, date);
      assert added == [added[0]] + portfolio;
      RemoveConcat([added[0]], portfolio, id);
      RemoveAbsent(portfolio, id);
    }
  }

  /** Adding under an identifier no item has keeps identifiers unique. */
  lemma AddFreshKeepsUnique(portfolio: seq<PortfolioItem>, author: Author, d: Draft, id: string, date: string)
    requires UniqueIds(portfolio) && id !in Ids(portfolio)
    ensures UniqueIds(Add(portfolio, author, d, id, date))
  {
    var r := Add(portfolio, author, d, id, date);
    if Committable(d) {
      forall i, j | 0 <= i < j < |r| ensures r[i].id != r[j].id {
        assert r[j] == portfolio[j - 1];
        if i > 0 {
          assert r[i] == portfolio[i - 1];
        } else {
          assert Ids(portfolio)[j - 1] == r[j].id;
        }
      }
    }
  }

  /** In a portfolio with unique identifiers, the tail is unique and holds no item with the head's identifier. */
  lemma UniqueSplit(portfolio: seq<PortfolioItem>)
    requires portfolio != [] && UniqueIds(portfolio)
    ensures UniqueIds(portfolio[1..])
    ensures forall p :: p in portfolio[1..] ==> p.id != portfolio[0].id
  {
    var tail := portfolio[1..];
    forall i, j | 0 <= i < j < |tail| ensures tail[i].id != tail[j].id {
      assert tail[i] == portfolio[i + 1] && tail[j] == portfolio[j + 1];
    }
    forall p | p in tail ensures p.id != portfolio[0].id {
      var k :| 0 <= k < |tail| && tail[k] == p;
      assert p == portfolio[k + 1];
    }
  }

  /** An item whose identifier no item of a unique list has can go in front of it. */
  lemma ConsUnique(head: PortfolioItem, rest: seq<PortfolioItem>)
    requires UniqueIds(rest) && forall q :: q in rest ==> q.id != head.id
    ensures UniqueIds([head] + rest)
  {
    var r := [head] + rest;
    forall i, j | 0 <= i < j < |r| ensures r[i].id != r[j].id {
      if i == 0 {
        assert r[j] == rest[j - 1] && rest[j - 1] in rest;
      } else {
        assert r[i] == rest[i - 1] && r[j] == rest[j - 1];
      }
    }
  }

  /** Deleting keeps identifiers unique. */
  lemma {:induction false} RemoveKeepsUnique(portfolio: seq<PortfolioItem>, id: string)
    requires UniqueIds(portfolio)
    ensures UniqueIds(Remove(portfolio, id))
  {
    if portfolio != [] {
      var head, tail := portfolio[0], portfolio[1..];
      UniqueSplit(portfolio);
      RemoveKeepsUnique(tail, id);
      var rest := Remove(tail, id);
      if head.id != id {
        assert Remove(portfolio, id) == [head] + rest;
        assert forall q :: q in rest ==> q in tail;
        ConsUnique(head, rest);
      }
    }
  }

  /** Which image control of a form a file was picked in. */
  datatype Side = Before | After

  /** What picking a file in an image control produced. */
  datatype ImagePick =
    | NoFile                    // the control closed with no file selected
    | Encoded(dataUrl: string)  // the file was read into a data URL
    | ReadFailed                // the file could not be read

  /**
   * The draft after an image pick: only the chosen side's image changes, and
   * only when the file was read.
   */
  function WithImage(d: Draft, side: Side, pick: ImagePick): (r: Draft)
    ensures r.title == d.title && r.description == d.description
    ensures r.category == d.category && r.majorCategory == d.majorCategory
    ensures r.beforeImg == (if pick.Encoded? && side == Before then Some(pick.dataUrl) else d.beforeImg)
    ensures r.afterImg == (if pick.Encoded? && side == After then Some(pick.dataUrl) else d.afterImg)
  {
    match (pick, side)
    case (Encoded(url), Before) => d.(beforeImg := Some(url))
    case (Encoded(url), After) => d.(afterImg := Some(url))
    case _ => d
  }

  /** The text fields a form's inputs are bound to. */
  datatype TextField = Title | Description | Category

  /** The draft after typing into one of its text inputs: that field changes, nothing else. */
  function WithText(d: Draft, field: TextField, value: string): (r: Draft)
    ensures r.beforeImg == d.beforeImg && r.afterImg == d.afterImg && r.majorCategory == d.majorCategory
    ensures r.title == (if field == Title then Some(value) else d.title)
    ensures r.description == (if field == Description then Some(value) else d.description)
    ensures r.category == (if field == Category then Some(value) else d.category)
  {
    match field
    case Title => d.(title := Some(value))
    case Description => d.(description := Some(value))
    case Category => d.(category := Some(value))
  }

  /** One user action on a draft: typing into an input, or picking a file in an image control. */
  datatype DraftEdit = Typed(field: TextField, value: string) | Picked(side: Side, pick: ImagePick)

  /**
   * The draft after a sequence of user actions, in order. No action sets the
   * major category; typing alone never changes the photos, and picking files
   * alone never changes the text.
   */
  function Replay(d: Draft, edits: seq<DraftEdit>): (r: Draft)
    ensures r.majorCategory == d.majorCategory
    ensures (forall k :: 0 <= k < |edits| ==> edits[k].Typed?) ==>
      r.beforeImg == d.beforeImg && r.afterImg == d.afterImg
    ensures (forall k :: 0 <= k < |edits| ==> edits[k].Picked?) ==>
      r.title == d.title && r.description == d.description && r.category == d.category
    decreases |edits|
  {
    if edits == [] then d
    else
      var next := match edits[0]
        case Typed(field, value) => WithText(d, field, value)
        case Picked(side, pick) => WithImage(d, side, pick);
      Replay(next, edits[1..])
  }

  /** True when no action types into the sub-category input (the admin tab has none). */
  predicate NoCategoryInput(edits: seq<DraftEdit>) {
    forall k :: 0 <= k < |edits| ==> !(edits[k].Typed? && edits[k].field == Category)
  }

  /**
   * Once the admin form has been reset, no sequence of actions it offers
   * brings back a category or a major category, so whatever it commits
   * next carries neither.
   */
  lemma {:induction false} AdminAfterResetLosesCategory(edits: seq<DraftEdit>, id: string, date: string)
    requires NoCategoryInput(edits)
    ensures Replay(ResetDraft(), edits).category.None? && Replay(ResetDraft(), edits).majorCategory.None?
    ensures Committable(Replay(ResetDraft(), edits)) ==>
      AdminItem(Replay(ResetDraft(), edits), id, date).category.None? &&
      AdminItem(Replay(ResetDraft(), edits), id, date).majorCategory.None?
  {
    CategoryStaysMissing(ResetDraft(), edits);
  }

  /** Actions other than typing a sub-category never set the category or the major category. */
  lemma {:induction false} CategoryStaysMissing(d: Draft, edits: seq<DraftEdit>)
    requires d.category.None? && d.majorCategory.None? && NoCategoryInput(edits)
    ensures Replay(d, edits).category.None? && Replay(d, edits).majorCategory.None?
    decreases |edits|
  {
    if edits != [] {
      var next := match edits[0]
        case Typed(field, value) => WithText(d, field, value)
        case Picked(side, pick) => WithImage(d, side, pick);
      assert NoCategoryInput(edits[1..]) by {
        forall k | 0 <= k < |edits[1..]| ensures !(edits[1..][k].Typed? && edits[1..][k].field == Category) {
          assert edits[1..][k] == edits[k + 1];
        }
      }
      CategoryStaysMissing(next, edits[1..]);
    }
  }
}
