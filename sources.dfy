/** The three parallel lists the fetchers return — regulation texts, source URLs
    and source titles — and the record view of one position of them. */
module Sources {

  datatype Source = Source(text: string, url: string, title: string)

  datatype SourceLists = SourceLists(texts: seq<string>, urls: seq<string>, titles: seq<string>) {
    /** The invariant of every fetcher: position `i` of each list describes the
        same source. */
    predicate Aligned() {
      |texts| == |urls| == |titles|
    }
  }

  /** The three lists of a sequence of records */
  function Unzip(ss: seq<Source>): (lists: SourceLists)
    ensures lists.Aligned() && |lists.texts| == |ss|
    ensures forall i :: 0 <= i < |ss| ==>
              lists.texts[i] == ss[i].text && lists.urls[i] == ss[i].url && lists.titles[i] == ss[i].title
  {
    SourceLists(seq(|ss|, i requires 0 <= i < |ss| => ss[i].text),
                seq(|ss|, i requires 0 <= i < |ss| => ss[i].url),
                seq(|ss|, i requires 0 <= i < |ss| => ss[i].title))
  }

  /** The records of three aligned lists */
  function Zip(lists: SourceLists): (ss: seq<Source>)
    requires lists.Aligned()
    ensures |ss| == |lists.texts|
    ensures forall i :: 0 <= i < |ss| ==> ss[i] == Source(lists.texts[i], lists.urls[i], lists.titles[i])
  {
    seq(|lists.texts|, i requires 0 <= i < |lists.texts| => Source(lists.texts[i], lists.urls[i], lists.titles[i]))
  }

  /** Zipping and unzipping are inverse on aligned lists. */
  lemma ZipUnzip(ss: seq<Source>, lists: SourceLists)
    ensures Zip(Unzip(ss)) == ss
    ensures lists.Aligned() ==> Unzip(Zip(lists)) == lists
  {
  }

  /** Appending one record to each list is appending it to the records:
      `append` on the three lists keeps them aligned. */
  lemma UnzipAppend(ss: seq<Source>, tt: seq<Source>)
    ensures Unzip(ss + tt) == SourceLists(Unzip(ss).texts + Unzip(tt).texts,
                                         Unzip(ss).urls + Unzip(tt).urls,
                                         Unzip(ss).titles + Unzip(tt).titles)
  {
  }

  /** Appending one record */
  lemma UnzipSnoc(ss: seq<Source>, s: Source)
    ensures Unzip(ss + [s]) == SourceLists(Unzip(ss).texts + [s.text], Unzip(ss).urls + [s.url], Unzip(ss).titles + [s.title])
  {
    UnzipAppend(ss, [s]);
  }

  /** The lists of no record and of one record */
  lemma UnzipSmall(s: Source)
    ensures Unzip([]) == SourceLists([], [], [])
    ensures Unzip([s]) == SourceLists([s.text], [s.url], [s.title])
  {
  }
}
