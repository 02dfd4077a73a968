/**
 * The news slice: the latest headlines, a loading flag, the last error and the
 * time of the last successful fetch.
 */
module NewsSlice {
  import opened Wrappers

  datatype Article = Article(title: string, description: string, link: string, sourceId: string, pubDate: string)

  class NewsStore {
    var articles: seq<Article>
    var loading: bool
    var error: Option<string>
    /** When the articles were fetched (ms); `None` is `null`. */
    var lastUpdated: Option<int>

    /** Headlines are only ever shown together with the time they were fetched. */
    ghost predicate Valid()
      reads this
    {
      lastUpdated.None? ==> articles == []
    }

    constructor()
      ensures Valid()
      ensures articles == [] && !loading && error == None && lastUpdated == None
    {
      articles := [];
      loading := false;
      error := None;
      lastUpdated := None;
    }

    /** `clearNews`: drop the headlines and their timestamp; loading and error are untouched. */
    method ClearNews()
      requires Valid()
      modifies this
      ensures Valid()
      ensures articles == [] && lastUpdated == None
      ensures loading == old(loading) && error == old(error)
    {
      articles := [];
      lastUpdated := None;
    }

    /** `fetchNewsData.pending`. */
    method FetchPending()
      requires Valid()
      modifies this
      ensures Valid()
      ensures loading && error == None
      ensures articles == old(articles) && lastUpdated == old(lastUpdated)
    {
      loading := true;
      error := None;
    }

    /** `fetchNewsData.fulfilled` at time `now`. */
    method FetchFulfilled(payload: seq<Article>, now: int)
      requires Valid()
      modifies this
      ensures Valid()
      ensures !loading && articles == payload && lastUpdated == Some(now) && error == None
    {
      loading := false;
      articles := payload;
      lastUpdated := Some(now);
      error := None;
    }

    /** `fetchNewsData.rejected`: the previous headlines stay. */
    method FetchRejected(message: string)
      requires Valid()
      modifies this
      ensures Valid()
      ensures !loading && error == Some(message)
      ensures articles == old(articles) && lastUpdated == old(lastUpdated)
    {
      loading := false;
      error := Some(message);
    }
  }
}
