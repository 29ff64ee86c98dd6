/** Media keys, the ids they are chosen from, and what a source reports. */
module Media {
  import opened Wrappers

  datatype Kind = Episode | Movie
  datatype Scheme = NoScheme | TVDB | TMDB | IMDb

  datatype RootKey = RootKey(kind: Kind, scheme: Scheme, id: nat)
  datatype Key = Key(root: RootKey, season: nat, episode: nat)

  const MAX_EXTERNAL_ID: nat := 0x20_0000_0000_0000
  const MAX_UINT16: nat := 0xFFFF

  /** The external ids a source knows; 0 is unknown. */
  datatype ExternalIds = ExternalIds(tvdb: nat, tmdb: nat, imdb: nat) {
    function Of(s: Scheme): Option<nat> {
      var id := match s case TVDB => tvdb case TMDB => tmdb case IMDb => imdb case NoScheme => 0;
      if ValidExternalId(id) then Some(id) else None
    }

    function OrElse(other: ExternalIds): ExternalIds {
      ExternalIds(
        if tvdb != 0 then tvdb else other.tvdb,
        if tmdb != 0 then tmdb else other.tmdb,
        if imdb != 0 then imdb else other.imdb)
    }
  }

  datatype Numbering = Numbering(season: int, episode: int, scheme: Scheme)

  predicate ValidExternalId(id: nat) {
    1 <= id < MAX_EXTERNAL_ID
  }

  predicate ValidEpisodeNumber(n: int) {
    0 <= n <= MAX_UINT16
  }

  /** The keys Choose can build. */
  predicate ValidKey(k: Key) {
    && ValidExternalId(k.root.id)
    && match k.root.kind
       case Movie => k.root.scheme in {TMDB, IMDb} && k.season == 0 && k.episode == 0
       case Episode => k.root.scheme != NoScheme && k.season <= MAX_UINT16 && k.episode <= MAX_UINT16
  }

  /** The key of an item: an episode by its numbering's scheme, a movie by its
      TMDB id before its IMDb id; None is unidentified. */
  function Choose(kind: Kind, ids: ExternalIds, n: Numbering): (k: Option<Key>)
    ensures k.Some? ==> ValidKey(k.value) && k.value.root.kind == kind
  {
    match kind
    case Episode =>
      var id := ids.Of(n.scheme);
      if id.None? || !ValidEpisodeNumber(n.season) || !ValidEpisodeNumber(n.episode) then None
      else Some(Key(RootKey(Episode, n.scheme, id.value), n.season, n.episode))
    case Movie =>
      var tmdb := ids.Of(TMDB);
      var imdb := ids.Of(IMDb);
      if tmdb.Some? then Some(Key(RootKey(Movie, TMDB, tmdb.value), 0, 0))
      else if imdb.Some? then Some(Key(RootKey(Movie, IMDb, imdb.value), 0, 0))
      else None
  }
}
