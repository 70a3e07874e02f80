/** What the user-management and background-check list pages share: the paging metadata of a
    list response with its default, and the avatar fallback made of a person's initials. */
module ListPages {
  import opened Wrappers
  import opened UrlEncoding

  /** The `meta` object of a list response. */
  datatype Meta = Meta(total: int, limit: int, page: int, totalPage: int)

  /** The metadata used while no response (or no `meta` in it) is there. */
  const DefaultMeta := Meta(0, 10, 1, 1)

  /** `response?.meta || { total: 0, limit: 10, page: 1, totalPage: 1 }`: an object is always
      truthy, so a metadata object that is present is kept whatever it holds. */
  function MetaOrDefault(meta: Option<Meta>): (r: Meta)
    ensures meta.Some? ==> r == meta.value
    ensures meta.None? ==> r.total == 0 && r.totalPage == 1 && r.page == 1 && r.limit == 10
  {
    match meta
    case Some(m) => m
    case None => DefaultMeta
  }

  /** The pagination controls are drawn only when there is more than one page. */
  predicate PaginationVisible(totalPages: int) {
    totalPages > 1
  }

  /** Without metadata the list is one page long, so no pagination is drawn. */
  lemma DefaultMetaHidesPagination()
    ensures !PaginationVisible(MetaOrDefault(None).totalPage)
  {
  }

  // ---------------------------------------------------------------- initials

  /** `pieces.map(n => n[0]).join('')`: the first character of each piece. An empty piece has
      no first character (`undefined`), which `join` writes as nothing. */
  function FirstLetters(pieces: seq<string>): (r: string)
    ensures |r| <= |pieces|
  {
    if pieces == [] then []
    else (if pieces[0] == [] then [] else [pieces[0][0]]) + FirstLetters(pieces[1..])
  }

  /** The avatar fallback: `name.split(' ').map(n => n[0]).join('')`. */
  function Initials(name: string): string {
    FirstLetters(Split(name, ' '))
  }

  /** Of words that are not empty, each gives exactly its first letter. */
  lemma {:induction false} FirstLettersOfWords(words: seq<string>)
    requires forall i :: 0 <= i < |words| ==> words[i] != []
    ensures |FirstLetters(words)| == |words|
    ensures forall i :: 0 <= i < |words| ==> FirstLetters(words)[i] == words[i][0]
  {
    if words != [] {
      FirstLettersOfWords(words[1..]);
      assert FirstLetters(words) == [words[0][0]] + FirstLetters(words[1..]);
    }
  }

  /** A name made of words separated by single spaces shows one initial per word, in order. */
  lemma InitialsOfWords(words: seq<string>)
    requires words != []
    requires forall i :: 0 <= i < |words| ==> words[i] != [] && ' ' !in words[i]
    ensures |Initials(Join(words, ' '))| == |words|
    ensures forall i :: 0 <= i < |words| ==> Initials(Join(words, ' '))[i] == words[i][0]
  {
    SplitJoin(words, ' ');
    FirstLettersOfWords(words);
  }
}
