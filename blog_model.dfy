/** The blog's plain records: entries, their authors and dates, categories, tags and pages. */
module BlogModel {

  /** `Long entryId`. */
  type EntryId = int

  /**
   * A point in time (`EventTime`/`OffsetDateTime`) in epoch milliseconds, together with its
   * RFC 1123 rendering, which the JDK date formatter produces and which is taken as given.
   */
  datatype EventTime = EventTime(epochMillis: int, rfc1123: string)

  datatype Author = Author(name: string, date: EventTime)

  datatype Category = Category(name: string)

  /** `categories.stream().map(Category::getName)`: the names, in order. */
  function CategoryNames(categories: seq<Category>): (names: seq<string>)
    ensures |names| == |categories|
    ensures forall i :: 0 <= i < |categories| ==> names[i] == categories[i].name
  {
    seq(|categories|, i requires 0 <= i < |categories| => categories[i].name)
  }

  datatype Tag = Tag(name: string)

  datatype FrontMatter = FrontMatter(title: string, categories: seq<Category>, tags: seq<Tag>)

  datatype Entry = Entry(
    entryId: EntryId,
    content: string,
    frontMatter: FrontMatter,
    created: Author,
    updated: Author)

  /** One page of entries (`BlogEntries`). */
  datatype BlogEntries = BlogEntries(content: seq<Entry>)

  /** The category path of one entry (`Categories`). */
  datatype Categories = Categories(categories: seq<Category>)
}
