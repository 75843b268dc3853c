/** `CrawlStats`: the run's counters (the start time and the table display are not modelled). */
module Stats {

  class CrawlStats {
    var totalUrls: nat
    var processedUrls: nat
    var successUrls: nat
    var failedUrls: nat

    /** Every processed result was counted as exactly one of success or failure. */
    predicate Balanced()
      reads this
    {
      processedUrls == successUrls + failedUrls
    }

    constructor ()
      ensures totalUrls == 0 && processedUrls == 0 && successUrls == 0 && failedUrls == 0
      ensures Balanced()
    {
      totalUrls, processedUrls, successUrls, failedUrls := 0, 0, 0, 0;
    }

    /** `add_url`: one more URL was queued. */
    method AddUrl()
      modifies this
      ensures totalUrls == old(totalUrls) + 1
      ensures processedUrls == old(processedUrls) && successUrls == old(successUrls)
      ensures failedUrls == old(failedUrls)
    {
      totalUrls := totalUrls + 1;
    }

    /** `url_processed(success)`: one more result, counted as a success or a failure. */
    method UrlProcessed(success: bool)
      modifies this
      ensures processedUrls == old(processedUrls) + 1
      ensures successUrls == old(successUrls) + (if success then 1 else 0)
      ensures failedUrls == old(failedUrls) + (if success then 0 else 1)
      ensures totalUrls == old(totalUrls)
      ensures old(Balanced()) ==> Balanced()
    {
      processedUrls := processedUrls + 1;
      if success {
        successUrls := successUrls + 1;
      } else {
        failedUrls := failedUrls + 1;
      }
    }
  }
}
