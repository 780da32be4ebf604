/**
 * Placeholder selection in the list-view example: each row shows the
 * provider's bitmap, the "loading" image while it is pending, or the
 * "coming soon" image when the row has no image URL.
 */
module ListViewExample {
  import opened Optional
  import opened ImageCache
  import opened ImageProviderService

  /** The session name the list view passes: the `TAG` it inherits from
      its base activity. */
  const SessionName: string := "BaseImageActivity"

  predicate HasImageUrl(imageUrl: Option<string>) {
    imageUrl.Some? && imageUrl.value != ""
  }

  /** The bitmap a row shows, given what the provider answered (`provided`,
      only consulted when there is a URL) and the two placeholders. */
  function Displayed(imageUrl: Option<string>, provided: Option<Bitmap>,
                     comingSoon: Option<Bitmap>, loading: Option<Bitmap>): (r: Option<Bitmap>)
    ensures !HasImageUrl(imageUrl) && comingSoon.Some? ==> r == comingSoon
    ensures HasImageUrl(imageUrl) && provided.Some? ==> r == provided
    ensures HasImageUrl(imageUrl) && provided.None? ==> r == loading
    ensures !HasImageUrl(imageUrl) && comingSoon.None? ==> r == loading
    ensures loading.Some? ==> r.Some?
  {
    var chosen := if HasImageUrl(imageUrl) then provided else comingSoon;
    if chosen.None? then loading else chosen
  }

  /** `solveBitmapCrisis` for a row whose image URL is `imageUrl`. */
  method SolveBitmapCrisis(provider: ImageProvider, imageUrl: Option<string>, handler: Handler)
    returns (bitmap: Option<Bitmap>)
    modifies provider
    ensures !HasImageUrl(imageUrl) ==>
      unchanged(provider) && bitmap == Displayed(imageUrl, None, provider.comingSoonImage, provider.loadingImage)
    ensures HasImageUrl(imageUrl) ==>
      var (after, provided) := ImageCache.GetBitmap(old(provider.Snapshot()), imageUrl.value,
                                                    Some(handler), Some(SessionName));
      provider.Snapshot() == after
      && bitmap == Displayed(imageUrl, provided, provider.comingSoonImage, provider.loadingImage)
    ensures provider.loadingImage.Some? ==> bitmap.Some?
  {
    if imageUrl.Some? && imageUrl.value != "" {
      bitmap := provider.GetBitmap(imageUrl.value, Some(handler), Some(SessionName));
    } else {
      bitmap := provider.comingSoonImage;
    }
    if bitmap.None? {
      bitmap := provider.loadingImage;
    }
  }

  /** On a provider cache hit the row shows the cached bitmap itself, and
      neither the queue nor the pending entries change. */
  lemma CacheHitShowsCachedBitmap(s: State, imageUrl: Option<string>, handler: Handler,
                                  comingSoon: Option<Bitmap>, loading: Option<Bitmap>)
    requires HasImageUrl(imageUrl)
    requires imageUrl.value in SessionCheck(s, Some(SessionName)).cache
    ensures var t := SessionCheck(s, Some(SessionName));
      var (after, provided) := ImageCache.GetBitmap(s, imageUrl.value, Some(handler), Some(SessionName));
      && Displayed(imageUrl, provided, comingSoon, loading) == Some(t.cache[imageUrl.value])
      && after.queue == t.queue && after.subscriptions == t.subscriptions
  {
  }

  /** On a miss the row shows the loading image, and the handler is
      subscribed to the URL. */
  lemma MissShowsLoadingImage(s: State, imageUrl: Option<string>, handler: Handler,
                              comingSoon: Option<Bitmap>, loading: Option<Bitmap>)
    requires HasImageUrl(imageUrl)
    requires imageUrl.value !in SessionCheck(s, Some(SessionName)).cache
    ensures var (after, provided) := ImageCache.GetBitmap(s, imageUrl.value, Some(handler), Some(SessionName));
      && Displayed(imageUrl, provided, comingSoon, loading) == loading
      && imageUrl.value in after.subscriptions && handler in after.subscriptions[imageUrl.value]
  {
  }

}
