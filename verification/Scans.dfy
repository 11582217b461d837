// Scans of a map in no particular order that stop when they have taken enough.
module Scans {

  // Some of the candidates: all of them, or as many as a limit allows. A
  // negative limit is never reached.
  ghost predicate Chosen<T>(candidates: set<T>, chosen: set<T>, limit: int) {
    && chosen <= candidates
    && |chosen| == if 0 <= limit <= |candidates| then limit else |candidates|
  }

  // A scan under way: what it took was due, and what is due it took or has yet to meet.
  ghost predicate Scanned(all: set<string>, due: set<string>, ids: set<string>, rest: set<string>) {
    rest <= all && rest !! ids && ids <= due <= ids + rest
  }

  lemma ScanStep(all: set<string>, due: set<string>, ids: set<string>, rest: set<string>, id: string)
    requires Scanned(all, due, ids, rest) && id in rest
    ensures id in all && id !in ids && |ids + {id}| == |ids| + 1
    ensures id in due ==> Scanned(all, due, ids + {id}, rest - {id})
    ensures id !in due ==> Scanned(all, due, ids, rest - {id})
  {
  }

  // Whichever way a scan ends, it has taken as many as it may.
  lemma Enough(all: set<string>, due: set<string>, ids: set<string>, rest: set<string>, limit: int)
    requires Scanned(all, due, ids, rest)
    requires rest == {} || |ids| == limit
    requires 0 <= limit ==> |ids| <= limit
    ensures Chosen(due, ids, limit)
  {
    if rest == {} {
      assert ids == due;
    } else {
      assert due == ids + (due - ids);
    }
  }
}
