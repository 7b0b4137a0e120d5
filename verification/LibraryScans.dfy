/** One scan of the photo library by a backup run: every page is filed and the run lock renewed after it, while
    another run may ask for the lock at any moment (scanLibrary in mobile/src/backup.ts). */
module LibraryScans {
  import opened Options
  import opened TransferQueue

  /** Another run that asks for the lock of the scope. */
  datatype Rival = Rival(owner: Owner, askedAt: int)

  /** A page of photos, when they are filed, who asks for the lock before the page is over, and when the lock is
      renewed. */
  datatype Page = Page(photos: seq<Photo>, filedAt: int, rival: Option<Rival>, renewedAt: int)

  /** Every photo filed, in order. */
  function Filed(rows: Rows, photos: seq<Photo>, now: int): Rows {
    if photos == [] then rows
    else Enqueue(Filed(rows, photos[..|photos| - 1], now), photos[|photos| - 1], now)
  }

  function AllFiled(rows: Rows, pages: seq<Page>): Rows {
    if pages == [] then rows
    else
      var last := pages[|pages| - 1];
      Filed(AllFiled(rows, pages[..|pages| - 1]), last.photos, last.filedAt)
  }

  /** The locks when the renewal at the end of the page is due. */
  function AfterRival(locks: map<Scope, Lock>, scope: Scope, page: Page): map<Scope, Lock> {
    if page.rival.Some? then Acquire(locks, scope, page.rival.value.owner, page.rival.value.askedAt) else locks
  }

  function AfterPages(locks: map<Scope, Lock>, scope: Scope, owner: Owner, pages: seq<Page>): map<Scope, Lock> {
    if pages == [] then locks
    else
      var last := pages[|pages| - 1];
      var before := AfterPages(locks, scope, owner, pages[..|pages| - 1]);
      Renew(AfterRival(before, scope, last), scope, owner, last.renewedAt)
  }

  /** Every renewal finds the lock where it should be. */
  predicate KeepsLock(locks: map<Scope, Lock>, scope: Scope, owner: Owner, pages: seq<Page>) {
    pages == [] ||
      (&& KeepsLock(locks, scope, owner, pages[..|pages| - 1])
       && HoldsRun(AfterRival(AfterPages(locks, scope, owner, pages[..|pages| - 1]), scope, pages[|pages| - 1]), scope,
                   owner))
  }

  /** The pages that are filed before the scan ends. */
  function PagesFiled(locks: map<Scope, Lock>, scope: Scope, owner: Owner, pages: seq<Page>): (n: nat)
    ensures n <= |pages|
    ensures KeepsLock(locks, scope, owner, pages) ==> n == |pages|
  {
    if pages == [] then 0
    else if !KeepsLock(locks, scope, owner, pages[..|pages| - 1])
    then PagesFiled(locks, scope, owner, pages[..|pages| - 1])
    else |pages|
  }

  /** A lost lock is never found again, so the scan ends with the page that lost it. */
  lemma {:induction false} ScanEnds(locks: map<Scope, Lock>, scope: Scope, owner: Owner, pages: seq<Page>, n: nat)
    requires 0 < n <= |pages| && KeepsLock(locks, scope, owner, pages[..n - 1])
    requires !KeepsLock(locks, scope, owner, pages[..n])
    ensures !KeepsLock(locks, scope, owner, pages) && PagesFiled(locks, scope, owner, pages) == n
    decreases |pages|
  {
    if n == |pages| {
      assert pages[..n] == pages;
    } else {
      var init := pages[..|pages| - 1];
      assert init[..n] == pages[..n] && init[..n - 1] == pages[..n - 1];
      ScanEnds(locks, scope, owner, init, n);
    }
  }

  lemma {:induction false} FiledKeepsOk(rows: Rows, photos: seq<Photo>, now: int)
    requires RowsOk(rows)
    ensures RowsOk(Filed(rows, photos, now))
  {
    if photos != [] { FiledKeepsOk(rows, photos[..|photos| - 1], now); }
  }

  lemma {:induction false} AllFiledKeepsOk(rows: Rows, pages: seq<Page>)
    requires RowsOk(rows)
    ensures RowsOk(AllFiled(rows, pages))
  {
    if pages != [] {
      var last := pages[|pages| - 1];
      AllFiledKeepsOk(rows, pages[..|pages| - 1]);
      FiledKeepsOk(AllFiled(rows, pages[..|pages| - 1]), last.photos, last.filedAt);
    }
  }

  // ---------------------------------------------------------------- when the scan keeps its lock

  /** When the lock runs out that page `k` starts with. */
  function ExpiryBefore(locks: map<Scope, Lock>, scope: Scope, pages: seq<Page>, k: nat): int
    requires scope in locks && k < |pages|
  {
    if k == 0 then locks[scope].expires else pages[k - 1].renewedAt + RUN_LEASE
  }

  /** Another run asks for the lock after it has run out. */
  predicate TakesOver(page: Page, owner: Owner, expires: int) {
    page.rival.Some? && page.rival.value.owner != owner && expires <= page.rival.value.askedAt
  }

  lemma RivalTakesOver(locks: map<Scope, Lock>, scope: Scope, owner: Owner, page: Page)
    requires HoldsRun(locks, scope, owner)
    ensures HoldsRun(AfterRival(locks, scope, page), scope, owner) <==> !TakesOver(page, owner, locks[scope].expires)
  {
  }

  lemma {:induction false} KeptLockHolds(locks: map<Scope, Lock>, scope: Scope, owner: Owner, pages: seq<Page>)
    requires HoldsRun(locks, scope, owner) && KeepsLock(locks, scope, owner, pages)
    ensures var after := AfterPages(locks, scope, owner, pages);
            && HoldsRun(after, scope, owner)
            && after[scope].expires == if pages == [] then locks[scope].expires
                                       else pages[|pages| - 1].renewedAt + RUN_LEASE
  {
    if pages != [] { KeptLockHolds(locks, scope, owner, pages[..|pages| - 1]); }
  }

  /** The page is over before the lease runs out, or nobody waits for it. */
  predicate InTime(locks: map<Scope, Lock>, scope: Scope, owner: Owner, pages: seq<Page>, k: nat)
    requires scope in locks && k < |pages|
  {
    !TakesOver(pages[k], owner, ExpiryBefore(locks, scope, pages, k))
  }

  lemma EarlierInTime(locks: map<Scope, Lock>, scope: Scope, owner: Owner, pages: seq<Page>, k: nat)
    requires scope in locks && k + 1 < |pages|
    ensures InTime(locks, scope, owner, pages[..|pages| - 1], k) == InTime(locks, scope, owner, pages, k)
  {
  }

  /** Exactly when the scan keeps its lock to the end: no page takes longer than the lease while another run waits
      for it. How long the pages take otherwise does not matter. */
  lemma {:induction false} KeepsLockExactly(locks: map<Scope, Lock>, scope: Scope, owner: Owner, pages: seq<Page>)
    requires HoldsRun(locks, scope, owner)
    ensures KeepsLock(locks, scope, owner, pages)
            <==> forall k: nat :: k < |pages| ==> InTime(locks, scope, owner, pages, k)
    decreases |pages|
  {
    if pages != [] {
      var init, n := pages[..|pages| - 1], |pages| - 1;
      KeepsLockExactly(locks, scope, owner, init);
      forall k: nat | k < n
        ensures InTime(locks, scope, owner, init, k) == InTime(locks, scope, owner, pages, k)
      {
        EarlierInTime(locks, scope, owner, pages, k);
      }
      if KeepsLock(locks, scope, owner, init) {
        KeptLockHolds(locks, scope, owner, init);
        RivalTakesOver(AfterPages(locks, scope, owner, init), scope, owner, pages[n]);
        assert KeepsLock(locks, scope, owner, pages) == InTime(locks, scope, owner, pages, n);
      }
    }
  }
}
