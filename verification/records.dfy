/** The data the map component works on: the four social platforms, one
    dataset row per municipality, and the four bundled datasets. */
module Records {
  import opened Wrappers
  import opened JsNumber

  /** The platforms the component knows, each with a bundled dataset. */
  datatype Platform = Facebook | Instagram | Twitter | YouTube

  /** The key the component stores in its active-platform field. */
  function Key(p: Platform): string {
    match p
    case Facebook => "fb"
    case Instagram => "ig"
    case Twitter => "tw"
    case YouTube => "yt"
  }

  /** The platform a key names, if any: the switch on the active key that
      both the colour mapper and the dataset selector perform. */
  function PlatformOf(key: string): (p: Option<Platform>)
    ensures p.Some? ==> Key(p.value) == key
    ensures p.None? ==> forall q: Platform :: Key(q) != key
  {
    if key == "fb" then Some(Facebook)
    else if key == "ig" then Some(Instagram)
    else if key == "tw" then Some(Twitter)
    else if key == "yt" then Some(YouTube)
    else None
  }

  /** Keys and platforms are in one-to-one correspondence. */
  lemma KeyRoundTrip(p: Platform, key: string)
    ensures PlatformOf(Key(p)) == Some(p)
    ensures PlatformOf(key) == Some(p) <==> Key(p) == key
  {
  }

  /** One dataset row: a municipality with its population and the counts
      its official account shows on one platform. Numeric columns hold the
      value JavaScript's numeric coercion gives the cell (`None` for NaN).
      `frequenza` is the posting-frequency label; `views` is the YouTube
      column "Numero di views totali". */
  datatype Record = Record(
    prov: string,
    comune: string,
    nomeComune: string,
    latitudine: real,
    longitudine: real,
    residenti: Num,
    followers: Num,
    likes: Num,
    frequenza: string,
    views: Num)

  /** The four bundled datasets, one per platform. */
  datatype Datasets = Datasets(fb: seq<Record>, ig: seq<Record>, tw: seq<Record>, yt: seq<Record>)
}
