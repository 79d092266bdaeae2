/** The admin page: open only to the profile named "Admin", it lists the mock
    catalogue followed by the uploaded items kept in local storage, and deletes
    items by id from both the list on screen and the stored list. */
module AdminPanel {
  import opened Text

  datatype ContentType = Movie | Show

  datatype ContentItem = ContentItem(
    id: int,
    title: string,
    imageUrl: string,
    kind: ContentType,
    rating: string,
    duration: Option<string>,
    seasons: Option<int>,
    year: string,
    description: Option<string>)

  /** The catalogue the page always shows first. */
  const MockContent: seq<ContentItem> := [
    ContentItem(1, "Stranger Things", "https://images.unsplash.com/photo-1605810230434-7631ac76ec81?&w=300&h=180&fit=crop",
                Show, "98%", None, Some(4), "2022", None),
    ContentItem(2, "Wednesday", "https://images.unsplash.com/photo-1721322800607-8c38375eef04?&w=300&h=180&fit=crop",
                Show, "95%", None, Some(1), "2023", None),
    ContentItem(3, "The Witcher", "https://images.unsplash.com/photo-1526374965328-7f61d4dc18c5?&w=300&h=180&fit=crop",
                Show, "92%", None, Some(3), "2021", None),
    ContentItem(4, "Matrix Resurrections", "https://images.unsplash.com/photo-1605810230434-7631ac76ec81?&w=300&h=180&fit=crop",
                Movie, "78%", Some("2h 28m"), None, "2021", None),
    ContentItem(5, "Inception", "https://images.unsplash.com/photo-1721322800607-8c38375eef04?&w=300&h=180&fit=crop",
                Movie, "94%", Some("2h 28m"), None, "2010", None)
  ]

  /** The profile name that opens the page. */
  const AdminName: string := "Admin"

  /** Where everyone else is sent. */
  const HomePath: string := "/home"

  /** The "uploadedContent" entry of local storage as the page sees it:
      absent (no entry, or an empty string), not a list that parses, or the
      list of items it parses to. */
  datatype StoredEntry = Missing | Unparsable | Parsed(items: seq<ContentItem>)

  /** Local storage, shared by every page that reads or writes the entry. */
  class UploadedStore {
    var entry: StoredEntry

    constructor (entry: StoredEntry)
      ensures this.entry == entry
    {
      this.entry := entry;
    }
  }

  // ---------------------------------------------------------------------------
  // The list operations

  /** The list an admin sees after mounting. */
  function InitialContent(stored: StoredEntry): (r: seq<ContentItem>)
    ensures |r| >= |MockContent| && r[..|MockContent|] == MockContent
    ensures stored.Parsed? ==> r[|MockContent|..] == stored.items
    ensures !stored.Parsed? ==> r == MockContent
  {
    if stored.Parsed? then MockContent + stored.items else MockContent
  }

  /** `items.filter(item => item.id !== id)`. */
  function Without(items: seq<ContentItem>, id: int): (r: seq<ContentItem>)
    ensures |r| <= |items|
    ensures forall x :: x in r <==> x in items && x.id != id
    ensures (forall x :: x in items ==> x.id != id) ==> r == items
  {
    if items == [] then []
    else if items[0].id == id then Without(items[1..], id)
    else [items[0]] + Without(items[1..], id)
  }

  /** `r` is `s` with some elements left out and the rest in their order. */
  predicate IsSubsequence(r: seq<ContentItem>, s: seq<ContentItem>)
    decreases |s|
  {
    if r == [] then true
    else if s == [] then false
    else (r[0] == s[0] && IsSubsequence(r[1..], s[1..])) || IsSubsequence(r, s[1..])
  }

  /** Deleting keeps the remaining items in their original relative order. */
  lemma {:induction false} WithoutIsSubsequence(items: seq<ContentItem>, id: int)
    ensures IsSubsequence(Without(items, id), items)
  {
    if items != [] {
      WithoutIsSubsequence(items[1..], id);
      var r := Without(items, id);
      if items[0].id != id {
        assert r[0] == items[0] && r[1..] == Without(items[1..], id);
      }
    }
  }

  /** Deleting keeps every item with another id as many times as it occurred,
      and keeps none with the deleted id. */
  lemma {:induction false} WithoutCounts(items: seq<ContentItem>, id: int)
    ensures forall x :: multiset(Without(items, id))[x] == if x.id == id then 0 else multiset(items)[x]
  {
    if items != [] {
      WithoutCounts(items[1..], id);
      assert items == [items[0]] + items[1..];
    }
  }

  /** Deleting distributes over concatenation: deleting from the merged list
      on screen gives the mock part with the id deleted followed by the stored
      part with the id deleted, which is what is written back to storage. */
  lemma {:induction false} WithoutConcat(a: seq<ContentItem>, b: seq<ContentItem>, id: int)
    ensures Without(a + b, id) == Without(a, id) + Without(b, id)
  {
    if a != [] {
      assert (a + b)[1..] == a[1..] + b;
      WithoutConcat(a[1..], b, id);
    } else {
      assert a + b == b;
    }
  }

  /** Deleting the same id twice is the same as deleting it once. */
  lemma WithoutIdempotent(items: seq<ContentItem>, id: int)
    ensures Without(Without(items, id), id) == Without(items, id)
  {
  }

  /** Deletes of two ids commute. */
  lemma {:induction false} WithoutCommutes(items: seq<ContentItem>, id1: int, id2: int)
    ensures Without(Without(items, id1), id2) == Without(Without(items, id2), id1)
  {
    if items != [] {
      WithoutCommutes(items[1..], id1, id2);
      var w1 := Without(items, id1);
      var w2 := Without(items, id2);
      if items[0].id != id1 {
        assert w1[1..] == Without(items[1..], id1);
      }
      if items[0].id != id2 {
        assert w2[1..] == Without(items[1..], id2);
      }
    }
  }

  // ---------------------------------------------------------------------------
  // What a card shows

  /** The noun after a show's season count. */
  function SeasonLabel(seasons: Option<int>): (noun: string)
    ensures noun == "Season" <==> seasons == Some(1)
    ensures noun == "Season" || noun == "Seasons"
  {
    if seasons == Some(1) then "Season" else "Seasons"
  }

  /** The last detail on a card: the season count of a show, the running time
      of a movie; a missing value renders as nothing. */
  function CardDetail(item: ContentItem): (text: string)
  {
    match item.kind
    case Show =>
      (if item.seasons.Some? then IntToString(item.seasons.value) else "") + " " + SeasonLabel(item.seasons)
    case Movie =>
      if item.duration.Some? then item.duration.value else ""
  }

  /** A show's card reads back: before the last space stand the decimal
      digits of its season count (a minus sign first when the count is
      negative), after it the season noun; a show without a count shows the
      plural noun alone. A movie's card shows its running time as stored. */
  lemma CardDetailReadsBack(item: ContentItem)
    ensures item.kind == Show && item.seasons.Some? ==>
      var text := CardDetail(item);
      var noun := SeasonLabel(item.seasons);
      var count := |text| - |noun| - 1;
      && 1 <= count
      && text[count] == ' '
      && text[count + 1..] == noun
      && (text[0] == '-' <==> item.seasons.value < 0)
      && (item.seasons.value >= 0 ==>
            IsDigits(text[..count]) && ParseDigits(text[..count]) == item.seasons.value)
    ensures item.kind == Show && item.seasons.None? ==> CardDetail(item) == " Seasons"
    ensures item.kind == Movie ==> (CardDetail(item) == "" <==> item.duration.None? || item.duration.value == "")
    ensures item.kind == Movie && item.duration.Some? ==> CardDetail(item) == item.duration.value
  {
    if item.kind == Show && item.seasons.Some? {
      var n := item.seasons.value;
      var digits := IntToString(n);
      var text := CardDetail(item);
      assert text == digits + " " + SeasonLabel(item.seasons);
      assert text[..|digits|] == digits;
      if n >= 0 {
        ParseNatToString(n);
      }
    }
  }

  // ---------------------------------------------------------------------------
  // The page

  /** What the page renders. */
  datatype View = CheckingCredentials | ContentGrid(cards: seq<ContentItem>)

  class AdminPage {
    var isAdmin: bool
    var content: seq<ContentItem>

    constructor ()
      ensures !isAdmin && content == []
    {
      isAdmin := false;
      content := [];
    }

    /** Only the placeholder until the gate lets the profile in; then a card
        for each item of the list, in order. */
    function Render(): (v: View)
      reads this
      ensures v == CheckingCredentials <==> !isAdmin
      ensures v.ContentGrid? ==> v.cards == content
    {
      if isAdmin then ContentGrid(content) else CheckingCredentials
    }

    /** The mount effect. A profile not named exactly "Admin" is sent home and
        the page is left as it was; an admin gets the flag and the mock list
        followed by the stored list (the mock list alone when nothing usable
        is stored). */
    method Mount(profileName: Option<string>, store: UploadedStore) returns (redirect: Option<string>)
      modifies this
      ensures profileName != Some(AdminName) ==>
        redirect == Some(HomePath) && isAdmin == old(isAdmin) && content == old(content)
      ensures profileName == Some(AdminName) ==>
        redirect == None && isAdmin && content == InitialContent(store.entry)
    {
      if profileName != Some(AdminName) {
        redirect := Some(HomePath);
        return;
      }
      redirect := None;
      isAdmin := true;
      content := InitialContent(store.entry);
    }

    /** The delete button: the item goes from the list on screen and, when a
        list is stored, from the stored list; anything else in storage is left
        alone. */
    method DeleteContent(id: int, store: UploadedStore)
      modifies this, store
      ensures isAdmin == old(isAdmin)
      ensures content == Without(old(content), id)
      ensures old(store.entry).Parsed? ==> store.entry == Parsed(Without(old(store.entry).items, id))
      ensures !old(store.entry).Parsed? ==> store.entry == old(store.entry)
    {
      content := Without(content, id);
      if store.entry.Parsed? {
        store.entry := Parsed(Without(store.entry.items, id));
      }
    }
  }

  /** After an admin mounts the page with a list in storage and deletes an id,
      the screen shows the mock list without that id followed by exactly what
      storage now holds. */
  method MountThenDelete(page: AdminPage, store: UploadedStore, items: seq<ContentItem>, id: int)
    requires store.entry == Parsed(items)
    modifies page, store
    ensures store.entry == Parsed(Without(items, id))
    ensures page.content == Without(MockContent, id) + store.entry.items
  {
    var redirect := page.Mount(Some(AdminName), store);
    page.DeleteContent(id, store);
    WithoutConcat(MockContent, items, id);
  }
}
