/**
 * The filter gallery: a fixed catalogue, the category selection that filters it,
 * and the favourites list that a heart button toggles.
 */
module FilterGallery {
  import opened Sequences

  datatype Filter = Filter(id: int, name: string, category: string, premium: bool, rating: real, downloads: string)

  const AllCategory := "All"

  const Categories: seq<string> := ["All", "Beauty", "Artistic", "Vintage", "Professional", "Fun", "AR Effects"]

  /** The catalogue, in display order (preview images left out). */
  const Catalogue: seq<Filter> := [
    Filter(1, "Smooth Skin", "Beauty", false, 4.8, "12K"),
    Filter(2, "Golden Hour", "Professional", true, 4.9, "8.5K"),
    Filter(3, "Neon Glow", "Artistic", false, 4.7, "15K"),
    Filter(4, "Film Grain", "Vintage", false, 4.6, "9.2K"),
    Filter(5, "Rainbow Lens", "Fun", true, 4.8, "6.7K"),
    Filter(6, "Cat Ears AR", "AR Effects", false, 4.5, "20K"),
    Filter(7, "Soft Focus", "Beauty", false, 4.7, "11K"),
    Filter(8, "Chrome Effect", "Artistic", true, 4.9, "4.2K")
  ]

  /** `filters.filter(f => category === "All" || f.category === category)` on any list. */
  function Select(fs: seq<Filter>, category: string): (r: seq<Filter>)
    ensures forall f :: f in r <==> f in fs && (category == AllCategory || f.category == category)
    ensures Subsequence(r, fs)
    ensures category == AllCategory ==> r == fs
  {
    if fs == [] then []
    else
      var rest := Select(fs[1..], category);
      assert forall f :: f in fs <==> f == fs[0] || f in fs[1..];
      if category == AllCategory || fs[0].category == category then
        assert ([fs[0]] + rest)[1..] == rest;
        [fs[0]] + rest
      else
        SubsequenceDropHead(rest, fs);
        rest
  }

  /** `filteredFilters`: the catalogue in the selected category, in catalogue order. */
  function FilteredFilters(category: string): (r: seq<Filter>)
    ensures forall f :: f in r <==> f in Catalogue && (category == AllCategory || f.category == category)
    ensures Subsequence(r, Catalogue)
  {
    Select(Catalogue, category)
  }

  /** `prev.filter(x => x !== id)`: every occurrence of `id` removed, the rest in order. */
  function Remove(favs: seq<int>, id: int): (r: seq<int>)
    ensures id !in r
    ensures forall x :: x != id ==> (x in r <==> x in favs)
    ensures multiset(r) == multiset(favs)[id := 0]
    ensures |r| <= |favs|
    ensures id !in favs ==> r == favs
    ensures Subsequence(r, favs)
  {
    if favs == [] then []
    else
      var rest := Remove(favs[1..], id);
      assert forall x :: x in favs <==> x == favs[0] || x in favs[1..];
      assert favs == [favs[0]] + favs[1..];
      if favs[0] == id then
        SubsequenceDropHead(rest, favs);
        rest
      else
        assert ([favs[0]] + rest)[1..] == rest;
        [favs[0]] + rest
  }

  /** `toggleFavorite(id)`: present ids are removed, absent ones appended at the end. */
  function Toggle(favs: seq<int>, id: int): (r: seq<int>)
    ensures id in r <==> id !in favs
    ensures forall x :: x != id ==> (x in r <==> x in favs)
    ensures id !in favs ==> r == favs + [id]
    ensures id in favs ==> Subsequence(r, favs)
  {
    if id in favs then Remove(favs, id) else favs + [id]
  }

  /** Toggling keeps the favourites free of duplicates. */
  lemma {:induction false} ToggleKeepsNoDuplicates(favs: seq<int>, id: int)
    requires NoDuplicates(favs)
    ensures NoDuplicates(Toggle(favs, id))
  {
    if id in favs {
      RemoveKeepsNoDuplicates(favs, id);
    }
  }

  lemma {:induction false} RemoveKeepsNoDuplicates(favs: seq<int>, id: int)
    requires NoDuplicates(favs)
    ensures NoDuplicates(Remove(favs, id))
  {
    if favs != [] {
      RemoveKeepsNoDuplicates(favs[1..], id);
      var rest := Remove(favs[1..], id);
      if favs[0] != id {
        assert favs[0] !in favs[1..];
        assert favs[0] !in rest;
        var r := [favs[0]] + rest;
        forall i, j | 0 <= i < j < |r| ensures r[i] != r[j] {
          if i == 0 {
            assert r[j] == rest[j - 1];
          }
        }
      }
    }
  }

  /** The gallery opens on "All" with no favourites. */
  const InitialCategory := AllCategory
  const InitialFavourites: seq<int> := []

  /** The favourites after the heart buttons of `ids` were clicked in turn, starting from `favs`. */
  function AfterClicks(favs: seq<int>, ids: seq<int>): seq<int>
    decreases |ids|
  {
    if ids == [] then favs else AfterClicks(Toggle(favs, ids[0]), ids[1..])
  }

  /** Any run of clicks keeps a duplicate-free favourites list free of duplicates. */
  lemma {:induction false} ClicksKeepNoDuplicates(favs: seq<int>, ids: seq<int>)
    requires NoDuplicates(favs)
    ensures NoDuplicates(AfterClicks(favs, ids))
    decreases |ids|
  {
    if ids != [] {
      ToggleKeepsNoDuplicates(favs, ids[0]);
      ClicksKeepNoDuplicates(Toggle(favs, ids[0]), ids[1..]);
    }
  }

  /**
   * The opening state shows the whole catalogue, and no run of clicks from it ever
   * lists a favourite twice.
   */
  lemma InitialState(ids: seq<int>)
    ensures FilteredFilters(InitialCategory) == Catalogue
    ensures InitialFavourites == [] && NoDuplicates(AfterClicks(InitialFavourites, ids))
  {
    ClicksKeepNoDuplicates(InitialFavourites, ids);
  }

  /** Toggling an absent id twice restores the list exactly. */
  lemma {:induction false} ToggleTwiceRestores(favs: seq<int>, id: int)
    requires id !in favs
    ensures Toggle(Toggle(favs, id), id) == favs
  {
    RemoveAppended(favs, id);
  }

  lemma {:induction false} RemoveAppended(favs: seq<int>, id: int)
    requires id !in favs
    ensures Remove(favs + [id], id) == favs
  {
    if favs != [] {
      assert (favs + [id])[1..] == favs[1..] + [id];
      RemoveAppended(favs[1..], id);
    }
  }

  /** Toggling a present id twice (in a duplicate-free list) moves it to the end. */
  lemma ToggleTwiceMovesToEnd(favs: seq<int>, id: int)
    requires id in favs
    ensures Toggle(Toggle(favs, id), id) == Remove(favs, id) + [id]
  {
  }

  /** The catalogue's ids are distinct, and every filter's category is a selectable one other than "All". */
  lemma CatalogueWellFormed()
    ensures forall i, j :: 0 <= i < j < |Catalogue| ==> Catalogue[i].id != Catalogue[j].id
    ensures forall i :: 0 <= i < |Catalogue| ==> Catalogue[i].category in Categories && Catalogue[i].category != AllCategory
  {
  }
}
