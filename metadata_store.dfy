/**
 * The metadata memo (`MetadataStore`): per track, the title, artist, artwork
 * and duration read from the audio file, computed once and then served from a
 * dictionary. Probing the file is outside the model: what each awaited load
 * yields is an input.
 */
module Metadata {
  import opened Wrappers
  import opened Tracks

  /** A time in seconds, copied and never computed with. */
  type Seconds = real

  newtype byte = x: int | 0 <= x < 256

  datatype AudioMetadata = AudioMetadata(
    title: string, artist: string, artwork: Option<seq<byte>>, duration: Seconds)

  /** The outcome of one awaited load on the asset. */
  datatype Load<T> = Loaded(value: T) | LoadFailed

  /**
   * The first common-metadata item with a given identifier: there is none, or
   * its value loaded (nil when it is not of the requested kind), or loading it threw.
   */
  datatype Tag<T> = NoItem | ItemValue(value: Option<T>) | ItemFailed

  datatype CommonMetadata = CommonMetadata(title: Tag<string>, artist: Tag<string>, artwork: Tag<seq<byte>>)

  /** What probing one audio file yields: its duration load and its common-metadata load. */
  datatype Probe = Probe(duration: Load<Seconds>, commonMetadata: Load<CommonMetadata>)

  /** `item?.load(...)` for an item that did not throw. */
  function TagValue<T>(t: Tag<T>): Option<T>
    requires !t.ItemFailed?
  {
    match t
    case NoItem => None
    case ItemValue(v) => v
  }

  /** No awaited load of the probe threw. */
  predicate ProbeSucceeds(p: Probe) {
    p.duration.Loaded? && p.commonMetadata.Loaded? &&
    !p.commonMetadata.value.title.ItemFailed? &&
    !p.commonMetadata.value.artist.ItemFailed? &&
    !p.commonMetadata.value.artwork.ItemFailed?
  }

  /**
   * `fetchMetadata(from:_:)`: the duration comes from the asset's duration
   * load; the title is the title tag, else `alterTitle`, else "Unknown"; the
   * artist is the artist tag, else "Unknown"; the artwork is optional. Any
   * failed load fails the whole fetch.
   */
  function FetchMetadata(probe: Probe, alterTitle: Option<string>): (r: Option<AudioMetadata>)
    ensures r.Some? <==> ProbeSucceeds(probe)
    ensures r.Some? ==> r.value.duration == probe.duration.value
    ensures r.Some? ==> var tags := probe.commonMetadata.value;
      && (TagValue(tags.title).Some? ==> r.value.title == TagValue(tags.title).value)
      && (TagValue(tags.title).None? && alterTitle.Some? ==> r.value.title == alterTitle.value)
      && (TagValue(tags.title).None? && alterTitle.None? ==> r.value.title == "Unknown")
      && (TagValue(tags.artist).Some? ==> r.value.artist == TagValue(tags.artist).value)
      && (TagValue(tags.artist).None? ==> r.value.artist == "Unknown")
      && r.value.artwork == TagValue(tags.artwork)
  {
    if !ProbeSucceeds(probe) then None
    else
      var tags := probe.commonMetadata.value;
      Some(AudioMetadata(
        title := TagValue(tags.title).GetOr(alterTitle.GetOr("Unknown")),
        artist := TagValue(tags.artist).GetOr("Unknown"),
        artwork := TagValue(tags.artwork),
        duration := probe.duration.value))
  }

  type Cache = map<Music, AudioMetadata>

  /**
   * One `loadIfNeeded(for:)` against `cache`: the value it returns (None when
   * it throws) and the cache it leaves. A hit returns the cached value without
   * probing; a miss fetches with the track's original name as alternate title
   * and stores only a successful result.
   */
  function LoadStep(cache: Cache, asset: Music, probe: Probe): (out: (Option<AudioMetadata>, Cache))
    ensures asset in cache ==> out == (Some(cache[asset]), cache)
    ensures asset !in cache ==> out.0 == FetchMetadata(probe, Some(asset.originalName))
    ensures out.0.Some? ==> out.1 == cache[asset := out.0.value]
    ensures out.0.None? ==> out.1 == cache
  {
    if asset in cache then (Some(cache[asset]), cache)
    else
      var fetched := FetchMetadata(probe, Some(asset.originalName));
      if fetched.None? then (None, cache) else (fetched, cache[asset := fetched.value])
  }

  /** Once a load has succeeded, later loads return the same value, whatever the file would now yield. */
  lemma LoadIsMemoised(cache: Cache, asset: Music, first: Probe, later: Probe)
    requires LoadStep(cache, asset, first).0.Some?
    ensures var (m, after) := LoadStep(cache, asset, first);
      LoadStep(after, asset, later) == (m, after)
  {
  }

  /** A failed load does not poison the cache: the next call probes afresh. */
  lemma FailedLoadRetries(cache: Cache, asset: Music, failing: Probe, retry: Probe)
    requires LoadStep(cache, asset, failing).0.None?
    ensures asset !in cache
    ensures LoadStep(LoadStep(cache, asset, failing).1, asset, retry) == LoadStep(cache, asset, retry)
  {
  }

  /** Entries are never removed or replaced by a load. */
  lemma LoadKeepsEntries(cache: Cache, asset: Music, probe: Probe)
    ensures var after := LoadStep(cache, asset, probe).1;
      forall k :: k in cache ==> k in after && after[k] == cache[k]
  {
  }

  /**
   * Through `loadIfNeeded` the alternate title is always the track's original
   * name, so the "Unknown" fallback for the title never applies.
   */
  lemma LoadedTitleFallsBackToOriginalName(cache: Cache, asset: Music, probe: Probe)
    requires asset !in cache && LoadStep(cache, asset, probe).0.Some?
    ensures var m := LoadStep(cache, asset, probe).0.value;
      var title := TagValue(probe.commonMetadata.value.title);
      m.title == (if title.Some? then title.value else asset.originalName)
  {
  }

  class MetadataStore {
    var cache: Cache

    constructor ()
      ensures cache == map[]
    {
      cache := map[];
    }

    /** `get(for:)`: the stored metadata of `asset`, nil if none. */
    method Get(asset: Music) returns (r: Option<AudioMetadata>)
      ensures r.Some? <==> asset in cache
      ensures r.Some? ==> r.value == cache[asset]
    {
      if asset in cache {
        r := Some(cache[asset]);
      } else {
        r := None;
      }
    }

    /** `set(_:for:)`: stores `data` under `asset`; no other entry changes. */
    method Set(data: AudioMetadata, asset: Music)
      modifies this
      ensures cache == old(cache)[asset := data]
      ensures forall k :: k != asset && k in old(cache) ==> k in cache && cache[k] == old(cache)[k]
    {
      cache := cache[asset := data];
    }

    /** `loadIfNeeded(for:)`; `probe` is what fetching from the file would yield. */
    method LoadIfNeeded(asset: Music, probe: Probe) returns (r: Option<AudioMetadata>)
      modifies this
      ensures (r, cache) == LoadStep(old(cache), asset, probe)
    {
      var cached := Get(asset);
      if cached.Some? {
        return cached;
      }
      var metadata := FetchMetadata(probe, Some(asset.originalName));
      if metadata.None? {
        return None;
      }
      Set(metadata.value, asset);
      return metadata;
    }
  }
}
