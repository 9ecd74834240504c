# Magazine publishing model

A Dafny model of a small C# publishing domain (`Program.cs`): a `Person` who writes
`Article`s, and a `Magazine` that holds a name, a publication `Frequency`, a publish date, an
edition number and a nullable array of articles. The one real operation is
`Magazine.AddArticles`, which appends articles by growing the array with `Array.Resize` and
filling the new slots with `Array.Copy`.

Files:

- `wrappers.dfy` — `Option`, used for C# null references (`None` is null).
- `system_array.dfy` — `Resize` and `Copy`, the two `System.Array` operations `AddArticles`
  relies on, written out as loops with full contracts.
- `publishing.dfy` — `Frequency`, `DateTime` (a tick count), the 32-bit `int32`, the `Person`,
  `Article` and `Magazine` classes, the value-level specification `AfterAdd` of `AddArticles`,
  lemmas about it, and the usage sequence from the comment at the end of `Program.cs`.

Modelling choices:

- C# `string` fields and parameters are `Option<string>`, because `new Magazine()` leaves the
  name null. An article's author is a `Person?` and an array slot is an `Article?`, since C#
  references may be null.
- The magazine's articles field is an `array?<Article?>`. The ghost function
  `Magazine.Contents()` reads it as `None` (null) or `Some` of its elements. The content
  contracts of `AddArticles` are stated about that view; its identity contracts (same array or
  fresh array) are stated about the field itself, and its outcome about the returned value.
- The property getters and the indexer `this[f]` (`Magazine.HasFrequency`) are plain read
  functions. The setters are methods that change only
  their own backing field.
- A null argument to `AddArticles` is not excluded by a precondition. The code does not guard
  it: `newArticles?.Length == 0` is false for null, a null articles field is replaced by an
  empty array, and the call then faults on `newArticles.Length` at line 113. The model returns
  `NullReferenceThrown` and keeps that side effect.
- `Array.Resize` keeps the same array when the size is unchanged and allocates otherwise. For a
  non-empty argument the size always grows, so the field ends up pointing at a fresh array.
- The clock (`DateTime.Now`) and `AddDays` are replaced by date parameters of the usage methods.

Three behaviours of the code worth noting:

- `new Magazine()` leaves the name null, not empty.
- `GetAvgRating` yields 0 only for a null array; on an empty array `Enumerable.Average` throws.
  This operation is left out (see below).
- `ToString` over a null articles array faults; this is left out too.

## Model

| member | source | states |
|---|---|---|
| `Publishing.Person.constructor` | Program.cs:30-33 | the person's name is the argument |
| `Publishing.Article.constructor` | Program.cs:8-13 | title, rating and author are stored verbatim, with no validation |
| `Publishing.Article.Untitled` | Program.cs:15-18 | the default article has the placeholder title, rating 0 and a new author with the placeholder name |
| `Publishing.Magazine.constructor` | Program.cs:46-56 | the four arguments are stored verbatim and the articles field stays null |
| `Publishing.Magazine.Default` | Program.cs:58-60 | every field has its type's default: null name, `Weekly`, `DateTime.MinValue`, edition 0, null articles |
| `Publishing.Magazine.SetName` | Program.cs:62-66 | the getter returns the value set; no other field changes |
| `Publishing.Magazine.SetFrequency` | Program.cs:68-72 | the getter returns the value set, and afterwards the indexer answers true for exactly that frequency; no other field changes |
| `Publishing.Magazine.SetPublishDate` | Program.cs:74-78 | the getter returns the value set; no other field changes |
| `Publishing.Magazine.SetEdition` | Program.cs:80-84 | the getter returns the value set; no other field changes |
| `Publishing.Magazine.SetArticles` | Program.cs:86-90 | the getter returns the same array reference, null included; the scalar fields do not change |
| `Publishing.IndexerSelectsOwnFrequency` | Program.cs:95-98 | exactly one of Weekly, Monthly and Yearly answers true on the indexer, and it is the magazine's own frequency |
| `Publishing.AfterAdd` | Program.cs:100-115 | an empty argument changes nothing (null stays null); the result is null exactly when the field was null and the argument empty; a null argument turns a null field into an empty one; otherwise the length is the old length plus the argument's, the old elements are kept as a prefix and the argument follows in order; a null field plus a non-empty argument gives exactly the argument |
| `Publishing.Magazine.AddArticles` | Program.cs:100-115 | the new articles value is `AfterAdd` of the old value and the argument; a null argument reports a fault; an empty argument keeps the same array object; a non-empty one leaves a fresh array; name, frequency, date and edition do not change, nor does any existing array |
| `Publishing.AddTwiceIsAddConcatenation` | Program.cs:100-115 | two successive appends give the same value as one append of the two arguments concatenated |
| `Publishing.AddEachIsOneAdd` | Program.cs:100-115 | any run of appends gives the same value as one append of the concatenation of all arguments, so articles only accumulate, in call order |
| `SystemArray.Resize` | Program.cs:113 | the array has the requested size, the common prefix is copied, new slots hold the default, and it is the same array exactly when the size is unchanged |
| `SystemArray.Copy` | Program.cs:114 | the destination holds the source range at the target offset and is unchanged elsewhere |
| `Publishing.UsageIndexer` | Program.cs:133-139 | a magazine built as `Weekly` answers true, false, false for Weekly, Monthly, Yearly |
| `Publishing.UsageSetters` | Program.cs:142-145 | after the four assignments the getters return the assigned values, and the indexer now answers for `Yearly` and not for `Weekly` |
| `Publishing.UsageArticles` | Program.cs:146-158 | after replacing the articles with two and appending two more, the four titles read back in order |

## Left out

- `GetAvgRating` (Program.cs:92-93): a floating-point average of `double` ratings; the model has no floating point. It is not modelled at all.
- `ToString`, `ToShortString` and `Article.ToString` (Program.cs:24-25, 117-129): culture-dependent text formatting of dates, doubles and enum names.
- Console output and the clock in the usage sequence (Program.cs:131-160): the dates are parameters instead.
- Ratings are plain reals. No arithmetic is done on them in the modelled code, so only storing and copying them matters. The non-finite `double` values (NaN, positive and negative infinity) and negative zero cannot be represented.
- `DateTime` is only its tick count. Its `Kind` bits are not modelled.
- `Publishing.Magazine.AddArticles`: does not model the 32-bit overflow of `articles.Length + newArticles.Length`. It would need arrays of about two billion elements.
- `Publishing.Magazine.AddArticles`: does not model that `Array.Empty<Article>()` is a shared singleton. After a null argument on a null field, the model only says that the field holds an empty array.
- `SystemArray.Copy`: requires distinct in-range arrays, where the library also accepts overlapping arrays and throws on bad ranges. The single call site passes a freshly allocated destination and in-range bounds.
- `SystemArray.Resize`: covers only a non-null array. The single call site never passes null.
