/** The publishing domain of Program.cs: people, articles and the `Magazine` aggregate.

    C# reference types are nullable, so a `string` field is an `Option<string>` (with `None`
    for null), an author is a `Person?` and an article slot is an `Article?`. */
module Publishing {
  import opened Wrappers
  import SystemArray

  /** Publication cadence; `Weekly` is the enum's default (zero) value. */
  datatype Frequency = Weekly | Monthly | Yearly

  /** A signed 32-bit integer, the type of the edition number. */
  newtype int32 = x: int | -0x8000_0000 <= x < 0x8000_0000

  /** The largest tick count a `System.DateTime` can hold (23:59:59.9999999 on 31 December 9999). */
  const MaxTicks: int := 3_155_378_975_999_999_999

  type Ticks = t: int | 0 <= t <= MaxTicks

  /** A `System.DateTime`, as its count of 100-nanosecond ticks since 1 January 0001. */
  datatype DateTime = FromTicks(ticks: Ticks)

  /** `default(DateTime)`, i.e. `DateTime.MinValue`. */
  const MinValue: DateTime := FromTicks(0)

  /** A `double` rating, as a real number. The core only stores and copies ratings; no arithmetic
      is done on them. */
  type Rating = real

  /** Placeholder title of a default-constructed article ("untitled"). */
  const UntitledName: string := "Без названия"

  /** Placeholder name of the author of a default-constructed article ("no author"). */
  const NoAuthorName: string := "Нет автора"

  /** An article author; `Name` is an auto-property, so a plain field. */
  class Person {
    var name: Option<string>

    constructor (name: Option<string>)
      ensures this.name == name
    {
      this.name := name;
    }
  }

  /** A titled, rated article with a shared (not owned) author. */
  class Article {
    var name: Option<string>
    var rating: Rating
    var author: Person?

    /** Stores the three arguments verbatim, with no validation. */
    constructor (name: Option<string>, rating: Rating, author: Person?)
      ensures this.name == name && this.rating == rating && this.author == author
    {
      this.name := name;
      this.rating := rating;
      this.author := author;
    }

    /** The parameterless constructor: a placeholder title, rating 0 and a new placeholder author. */
    constructor Untitled()
      ensures name == Some(UntitledName) && rating == 0.0
      ensures author != null && fresh(author) && author.name == Some(NoAuthorName)
    {
      name := Some(UntitledName);
      rating := 0.0;
      author := new Person(Some(NoAuthorName));
    }
  }

  /** The value held by a nullable `Article[]`: `None` for a null array, otherwise its elements. */
  type ArticlesValue = Option<seq<Article?>>

  /** The elements of an articles value; a null array is read as holding none. */
  function Elements(v: ArticlesValue): (r: seq<Article?>) {
    v.GetOr([])
  }

  /** What `AddArticles` leaves in the articles field, given the field's value before the call and
      the argument array (`None` for a null argument).
      - an empty argument changes nothing, and a null field stays null;
      - a null argument still turns a null field into an empty array before the call faults;
      - otherwise the field holds the old elements followed by the new ones, in order. */
  function AfterAdd(current: ArticlesValue, added: ArticlesValue): (r: ArticlesValue)
    ensures added == Some([]) ==> r == current
    ensures r.None? <==> current.None? && added == Some([])
    ensures current.Some? ==> r.Some?
    ensures current.None? && added.Some? && added.value != [] ==> r == added
    ensures added.None? ==> Elements(r) == Elements(current)
    ensures |Elements(r)| == |Elements(current)| + |Elements(added)|
    ensures Elements(r)[..|Elements(current)|] == Elements(current)
    ensures forall i :: 0 <= i < |Elements(added)| ==> Elements(r)[|Elements(current)| + i] == Elements(added)[i]
  {
    if added == Some([]) then current
    else
      assert current.None? ==> Elements(current) + Elements(added) == Elements(added);
      Some(Elements(current) + Elements(added))
  }

  /** How a call of `AddArticles` ends. */
  datatype Outcome = Completed | NullReferenceThrown

  /** The concatenation of a sequence of argument arrays. */
  function Flatten(batches: seq<seq<Article?>>): (r: seq<Article?>) {
    if batches == [] then [] else batches[0] + Flatten(batches[1..])
  }

  /** The articles value after one non-null `AddArticles` call per batch, in order. */
  function AddEach(current: ArticlesValue, batches: seq<seq<Article?>>): (r: ArticlesValue)
    decreases |batches|
  {
    if batches == [] then current else AddEach(AfterAdd(current, Some(batches[0])), batches[1..])
  }

  /** Two successive calls of `AddArticles` leave the same value as one call with both arguments
      concatenated, including the case where both are empty and a null field stays null. */
  lemma AddTwiceIsAddConcatenation(current: ArticlesValue, a: seq<Article?>, b: seq<Article?>)
    ensures AfterAdd(AfterAdd(current, Some(a)), Some(b)) == AfterAdd(current, Some(a + b))
  {
    if a != [] && b != [] {
      assert Elements(current) + a + b == Elements(current) + (a + b);
    } else if a == [] {
      assert a + b == b;
    } else {
      assert a + b == a;
    }
  }

  /** Articles only ever accumulate: any run of `AddArticles` calls leaves the same value as a
      single call with the concatenation of their arguments. */
  lemma {:induction false} AddEachIsOneAdd(current: ArticlesValue, batches: seq<seq<Article?>>)
    ensures AddEach(current, batches) == AfterAdd(current, Some(Flatten(batches)))
    decreases |batches|
  {
    if batches != [] {
      AddEachIsOneAdd(AfterAdd(current, Some(batches[0])), batches[1..]);
      AddTwiceIsAddConcatenation(current, batches[0], Flatten(batches[1..]));
    }
  }

  class Magazine {
    var name: Option<string>
    var frequency: Frequency
    var publishDate: DateTime
    var edition: int32
    var articles: array?<Article?>

    /** The value held by the articles field: its elements, or `None` while it is null. */
    ghost function Contents(): (r: ArticlesValue)
      reads this, articles
    {
      if articles == null then None else Some(articles[..])
    }

    /** Stores the four arguments verbatim; the articles field stays null. */
    constructor (name: Option<string>, frequency: Frequency, publishDate: DateTime, edition: int32)
      ensures this.name == name && this.frequency == frequency
      ensures this.publishDate == publishDate && this.edition == edition
      ensures articles == null && Contents() == None
    {
      this.name := name;
      this.frequency := frequency;
      this.publishDate := publishDate;
      this.edition := edition;
      this.articles := null;
    }

    /** The parameterless constructor: every field keeps its type's default value. */
    constructor Default()
      ensures name == None && frequency == Weekly && publishDate == MinValue && edition == 0
      ensures articles == null && Contents() == None
    {
      name := None;
      frequency := Weekly;
      publishDate := MinValue;
      edition := 0;
      articles := null;
    }

    function Name(): (r: Option<string>) reads this { name }

    function Frequency(): (r: Frequency) reads this { frequency }

    function PublishDate(): (r: DateTime) reads this { publishDate }

    function Edition(): (r: int32) reads this { edition }

    /** The articles property hands out the array itself, not a copy. */
    function Articles(): (r: array?<Article?>) reads this { articles }

    method SetName(value: Option<string>)
      modifies this`name
      ensures Name() == value
      ensures frequency == old(frequency) && publishDate == old(publishDate)
      ensures edition == old(edition) && articles == old(articles)
    {
      name := value;
    }

    method SetFrequency(value: Frequency)
      modifies this`frequency
      ensures Frequency() == value
      ensures forall f :: HasFrequency(f) <==> f == value
      ensures name == old(name) && publishDate == old(publishDate)
      ensures edition == old(edition) && articles == old(articles)
    {
      frequency := value;
    }

    method SetPublishDate(value: DateTime)
      modifies this`publishDate
      ensures PublishDate() == value
      ensures name == old(name) && frequency == old(frequency)
      ensures edition == old(edition) && articles == old(articles)
    {
      publishDate := value;
    }

    method SetEdition(value: int32)
      modifies this`edition
      ensures Edition() == value
      ensures name == old(name) && frequency == old(frequency)
      ensures publishDate == old(publishDate) && articles == old(articles)
    {
      edition := value;
    }

    /** Stores the given array reference itself (null included); the caller's array is shared. */
    method SetArticles(value: array?<Article?>)
      modifies this`articles
      ensures Articles() == value
      ensures Contents() == if value == null then None else Some(value[..])
      ensures name == old(name) && frequency == old(frequency)
      ensures publishDate == old(publishDate) && edition == old(edition)
    {
      articles := value;
    }

    /** The indexer `this[f]`: whether the magazine's current frequency is `f`. */
    function HasFrequency(f: Frequency): (b: bool)
      reads this
    {
      Frequency() == f
    }

    /** Appends the elements of `newArticles` to the articles array, growing it into a new array.
        An empty argument returns at once; a null argument faults once it is dereferenced,
        after a null articles field has already been replaced by an empty array. */
    method AddArticles(newArticles: array?<Article?>) returns (outcome: Outcome)
      modifies this
      ensures outcome == if newArticles == null then NullReferenceThrown else Completed
      ensures Contents() == AfterAdd(old(Contents()), if newArticles == null then None else Some(newArticles[..]))
      ensures newArticles != null && newArticles.Length == 0 ==> articles == old(articles)
      ensures newArticles == null && old(articles) != null ==> articles == old(articles)
      ensures newArticles != null && newArticles.Length != 0 ==> fresh(articles)
      ensures name == old(name) && frequency == old(frequency)
      ensures publishDate == old(publishDate) && edition == old(edition)
    {
      if newArticles != null && newArticles.Length == 0 {
        return Completed;
      }
      if articles == null {
        articles := new Article?[0];
      }
      var oldLength := articles.Length;
      if newArticles == null {
        assert articles[..] + [] == articles[..];
        return NullReferenceThrown;
      }
      ghost var before := articles[..];
      assert before == Elements(old(Contents()));
      articles := SystemArray.Resize(articles, articles.Length + newArticles.Length, null);
      assert articles[..oldLength] == before;
      SystemArray.Copy(newArticles, 0, articles, oldLength, newArticles.Length);
      assert newArticles[0..newArticles.Length] == newArticles[..];
      assert articles[..] == before + newArticles[..];
      outcome := Completed;
    }
  }

  /** The number of the three frequencies for which the indexer answers true. */
  function TrueAnswers(m: Magazine): (n: nat)
    reads m
  {
    (if m.HasFrequency(Weekly) then 1 else 0)
    + (if m.HasFrequency(Monthly) then 1 else 0)
    + (if m.HasFrequency(Yearly) then 1 else 0)
  }

  /** Exactly one of Weekly, Monthly and Yearly answers true on the indexer: the magazine's own. */
  lemma IndexerSelectsOwnFrequency(m: Magazine)
    ensures TrueAnswers(m) == 1
    ensures m.HasFrequency(m.Frequency())
    ensures forall f, g :: m.HasFrequency(f) && m.HasFrequency(g) ==> f == g
  {
  }

  /** `new Article(title, rating, new Person(authorName))`. */
  method NewArticle(title: Option<string>, rating: Rating, authorName: Option<string>) returns (a: Article)
    ensures fresh(a) && a.name == title && a.rating == rating
    ensures a.author != null && fresh(a.author) && a.author.name == authorName
  {
    var author := new Person(authorName);
    a := new Article(title, rating, author);
  }

  /** The start of the usage sequence kept in a comment at the end of Program.cs: a weekly
      magazine answers the indexer with true, false, false for Weekly, Monthly, Yearly.
      The date is a parameter, since reading the clock is not part of this model. */
  method UsageIndexer(now: DateTime) returns (weekly: bool, monthly: bool, yearly: bool)
    ensures weekly && !monthly && !yearly
  {
    var magazine := new Magazine(Some("Тест"), Weekly, now, 2);
    weekly := magazine.HasFrequency(Weekly);
    monthly := magazine.HasFrequency(Monthly);
    yearly := magazine.HasFrequency(Yearly);
  }

  /** The usage sequence's four property assignments, each read back through its getter; after
      the frequency becomes Yearly the indexer answers accordingly. The earlier date is a
      parameter, since date arithmetic is not part of this model. */
  method UsageSetters(now: DateTime, dayBefore: DateTime)
    returns (name: Option<string>, weekly: bool, yearly: bool, date: DateTime, edition: int32)
    ensures name == Some("Тест 2") && !weekly && yearly && date == dayBefore && edition == 3
  {
    var magazine := new Magazine(Some("Тест"), Weekly, now, 2);
    magazine.SetName(Some("Тест 2"));
    magazine.SetFrequency(Yearly);
    magazine.SetPublishDate(dayBefore);
    magazine.SetEdition(3);
    name := magazine.Name();
    weekly := magazine.HasFrequency(Weekly);
    yearly := magazine.HasFrequency(Yearly);
    date := magazine.PublishDate();
    edition := magazine.Edition();
  }

  /** The rest of the usage sequence: the articles are replaced by two and then extended by two
      more, and the titles read back through the articles property come out in that order. */
  method UsageArticles(now: DateTime) returns (titles: seq<Option<string>>)
    ensures titles == [Some("Статья 1"), Some("Статья 2"), Some("Статья 3"), Some("Статья 4")]
  {
    var magazine := new Magazine(Some("Тест"), Weekly, now, 2);
    var a1 := NewArticle(Some("Статья 1"), 1.0, Some("Семен"));
    var a2 := NewArticle(Some("Статья 2"), 2.0, Some("Валера"));
    var replacement := new Article?[] [a1, a2];
    assert replacement[..] == [a1, a2];
    magazine.SetArticles(replacement);

    var a3 := NewArticle(Some("Статья 3"), 3.0, Some("Алекс"));
    var a4 := NewArticle(Some("Статья 4"), 4.0, Some("Алла"));
    var added := new Article?[] [a3, a4];
    assert added[..] == [a3, a4];
    var outcome := magazine.AddArticles(added);
    var list := magazine.Articles();
    assert list[..] == [a1, a2] + [a3, a4];
    titles := [list[0].name, list[1].name, list[2].name, list[3].name];
  }
}
