/**
 * The trending page: a category selection toggled by the category buttons, a search and
 * category filter over the trending videos and a sort chosen by name.
 */
module Trending {
  import Js
  import Sorting

  datatype Video = Video(
    title: string, channel: string, views: int, viewsGrowth: int, likesGrowth: int,
    commentsGrowth: int, category: string)

  predicate NoDuplicates(s: seq<string>)
  {
    forall i, j :: 0 <= i < j < |s| ==> s[i] != s[j]
  }

  /** `toggleCategory`: "All" clears the selection, any other category flips its membership. */
  function Toggled(selected: seq<string>, category: string): (r: seq<string>)
    ensures category == "All" ==> r == []
    ensures category != "All" ==> (category in r <==> category !in selected)
    ensures category != "All" ==> forall c :: c != category ==> (c in r <==> c in selected)
    ensures NoDuplicates(selected) ==> NoDuplicates(r)
  {
    if category == "All" then []
    else if category in selected then
      var r := Js.Filter(selected, (c: string) => c != category);
      if NoDuplicates(selected) then FilterKeepsUnique(selected, (c: string) => c != category); r else r
    else selected + [category]
  }

  /** Filtering leaves no duplicate behind when there was none. */
  lemma {:induction false} FilterKeepsUnique(s: seq<string>, p: string -> bool)
    requires NoDuplicates(s)
    ensures NoDuplicates(Js.Filter(s, p))
  {
    if |s| > 0 {
      var init := s[..|s| - 1];
      var last := s[|s| - 1];
      Js.LastSplit(s);
      assert NoDuplicates(init);
      FilterKeepsUnique(init, p);
    }
  }

  class TrendingPage {
    var searchQuery: string
    var selectedCategories: seq<string>
    var sortOption: string

    constructor()
      ensures searchQuery == "" && selectedCategories == [] && sortOption == "growth"
    {
      searchQuery, selectedCategories, sortOption := "", [], "growth";
    }

    method ToggleCategory(category: string)
      modifies this
      ensures selectedCategories == Toggled(old(selectedCategories), category)
      ensures searchQuery == old(searchQuery) && sortOption == old(sortOption)
    {
      if category == "All" {
        selectedCategories := [];
        return;
      }
      if category in selectedCategories {
        selectedCategories := Js.Filter(selectedCategories, (c: string) => c != category);
      } else {
        selectedCategories := selectedCategories + [category];
      }
    }
  }

  /** The `filteredVideos` predicate. */
  predicate Matches(v: Video, query: string, selected: seq<string>)
  {
    var q := Js.ToLower(query);
    (Js.Contains(Js.ToLower(v.title), q) || Js.Contains(Js.ToLower(v.channel), q)) &&
    (|selected| == 0 || v.category in selected)
  }

  function FilteredVideos(videos: seq<Video>, query: string, selected: seq<string>): seq<Video>
  {
    Js.Filter(videos, (v: Video) => Matches(v, query, selected))
  }

  /**
   * A video is kept, as often as it occurs, exactly when the lowercased query occurs in its
   * lowercased title or channel and the selection is empty or holds its category; an empty
   * query with an empty selection keeps every video.
   */
  lemma FilterMeaning(videos: seq<Video>, query: string, selected: seq<string>, v: Video)
    ensures multiset(FilteredVideos(videos, query, selected))[v] ==
              if Matches(v, query, selected) then multiset(videos)[v] else 0
    ensures query == [] && selected == [] ==> FilteredVideos(videos, query, selected) == videos
  {
    var p := (w: Video) => Matches(w, query, selected);
    Js.FilterCount(videos, p, v);
    if query == [] && selected == [] {
      forall i | 0 <= i < |videos|
        ensures p(videos[i])
      {
        Js.ContainsEmpty(Js.ToLower(videos[i].title));
      }
      Js.FilterKeepsAll(videos, p);
    }
  }

  /** The `sortedVideos` comparator for an option. */
  function Comparator(option: string): (Video, Video) -> int
  {
    if option == "growth" then (a: Video, b: Video) => b.viewsGrowth - a.viewsGrowth
    else if option == "views" then (a: Video, b: Video) => b.views - a.views
    else if option == "engagement" then
      (a: Video, b: Video) => (b.likesGrowth + b.commentsGrowth) - (a.likesGrowth + a.commentsGrowth)
    else (a: Video, b: Video) => 0
  }

  function SortedVideos(filtered: seq<Video>, option: string): seq<Video>
  {
    Sorting.Sort(filtered, Comparator(option))
  }

  /**
   * The sorted videos are the filtered ones, each as often, with non-increasing view growth,
   * views or likes-plus-comments growth for 'growth', 'views' and 'engagement'; any other
   * option keeps the filtered order.
   */
  lemma SortMeaning(filtered: seq<Video>, option: string)
    ensures multiset(SortedVideos(filtered, option)) == multiset(filtered)
    ensures var s := SortedVideos(filtered, option);
            forall i, j :: 0 <= i < j < |s| ==>
              (option == "growth" ==> s[i].viewsGrowth >= s[j].viewsGrowth) &&
              (option == "views" ==> s[i].views >= s[j].views) &&
              (option == "engagement" ==>
                 s[i].likesGrowth + s[i].commentsGrowth >= s[j].likesGrowth + s[j].commentsGrowth)
    ensures option != "growth" && option != "views" && option != "engagement" ==>
              SortedVideos(filtered, option) == filtered
  {
    var cmp := Comparator(option);
    assert Sorting.Consistent(cmp);
    Sorting.SortCorrect(filtered, cmp);
    if option != "growth" && option != "views" && option != "engagement" {
      Sorting.SortStable(filtered, cmp);
    }
  }
}
