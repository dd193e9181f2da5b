/** From the evidence a published index rests on in the store to the contents of its tablets. */
module PublishedIndex {
  import opened Common
  import opened DdlTypes
  import opened DdlInvariant
  import opened DdlTheorems
  import opened Keyspace
  import opened IndexBuild
  import opened IndexUpkeep
  import opened TabletBuild

  /** One tablet when its validation compared: its rows and the generation built over them. */
  datatype TabletImage = TabletImage(rows: Rows, index: Generation)

  /** The checksum tells the two compared sets apart if they differ and have one size. */
  ghost predicate Separates(checksum: Generation -> seq<nat>, a: Generation, b: Generation) {
    |a| == |b| && checksum(a) == checksum(b) ==> a == b
  }

  /** The report is of this tablet, nothing had been committed above its watermark, and the checksum was good enough. */
  ghost predicate Witnesses(p: Projection, checksum: Generation -> seq<nat>, t: TabletId, report: TabletValidationReport, image: TabletImage) {
    var expected := Projected(p, RowsAt(image.rows, report.watermark));
    && IsReport(report, t, checksum, expected, image.index) && Separates(checksum, expected, image.index)
    && Drained(image.rows, report.watermark)
  }

  /**
   * The report on a correct build into which one more write landed after the last delta read passes
   * exactly when the write stored what the index already held, or the checksum misses the difference.
   */
  lemma LateWriteReport(p: Projection, checksum: Generation -> seq<nat>, t: TabletId, report: TabletValidationReport,
                        image: TabletImage, key: Key, v: Version)
    requires Drained(image.rows, report.watermark) && v.ts > report.watermark
    requires image.index == Projected(p, RowsAt(image.rows, report.watermark))
    requires IsReport(report, t, checksum, Projected(p, RowsAt(Committed(image.rows, key, v), report.watermark)),
                      Put(image.index, key, v.value))
    ensures report.Passed() <==>
      v.value == Lookup(image.index, key) || !Separates(checksum, image.index, Put(image.index, key, v.value))
  {
    LateWriteVerdict(p, image.rows, image.index, report.watermark, key, v);
  }

  /** A passing report is then a proof of contents. */
  lemma PassingReportProves(p: Projection, checksum: Generation -> seq<nat>, t: TabletId, report: TabletValidationReport, image: TabletImage)
    requires report.Passed() && Witnesses(p, checksum, t, report, image)
    ensures Tracks(p, image.rows, image.index)
  {
    DrainedTracks(p, image.rows, image.index, report.watermark);
  }

  /**
   * A Public index, in any store satisfying the invariant: on every tablet its job validated, the
   * index answers every key as the newest rows would, and goes on doing so through any in-order
   * writes after validation, if it stores rows.
   */
  lemma PublicIndexServes(s: Store, k: (TableId, string), p: Projection, checksum: Generation -> seq<nat>,
                          images: map<TabletId, TabletImage>, later: map<TabletId, seq<Write>>, t: TabletId)
    requires Inv(s) && k in s.indexes && s.indexes[k].phase.Public? && s.indexes[k].jobId in s.jobs
    requires t in s.jobs[s.indexes[k].jobId].tabletProgress && t in images && t in later
    requires s.jobs[s.indexes[k].jobId].tabletProgress[t].validation.Some?
    requires Witnesses(p, checksum, t, s.jobs[s.indexes[k].jobId].tabletProgress[t].validation.value, images[t])
    requires CommitOrdered(images[t].rows, later[t]) && StoresRows(p, later[t])
    ensures Tracks(p, RowsAfter(images[t].rows, later[t]), IndexAfter(images[t].index, later[t]))
  {
    PublishedEvidence(s, k);
    PassingReportProves(p, checksum, t, s.jobs[s.indexes[k].jobId].tabletProgress[t].validation.value, images[t]);
    PublicIndexTracks(p, images[t].rows, images[t].index, later[t]);
  }
}
