/** The include-directory part of `newConfiguration` (config.go:68-93): the
    resources of the main configuration file, followed by those of every
    `*.toml` file in the include directory that has at least one template.

    Reading the directory, reading each file (with environment expansion) and
    TOML decoding are I/O and a foreign parser; their outcomes are inputs:
    the listing is a `Result`, and every directory entry carries the outcome
    of reading it and of decoding it. */
module Configuration {
  import opened Results

  /** A `[[resource]]` table: its template process configs and its backend group. */
  datatype Resource<T, B> = Resource(templates: seq<T>, backend: B)

  /** One entry of the include directory as the loop sees it: its name, the
      error reading the file gave (if any) and what decoding its contents gave. */
  datatype DirEntry<T, B, E> = DirEntry(name: string, readError: Option<E>, parsed: Result<Resource<T, B>, E>)

  /** What `newConfiguration` hands back. On an error Go still returns the
      configuration value, whose list already holds the resources appended
      before the failing file; `Aborted` keeps that list as well as the error. */
  datatype Loaded<T, B, E> =
    | Loaded(resources: seq<Resource<T, B>>)
    | Aborted(resources: seq<Resource<T, B>>, error: E)

  /** `strings.HasSuffix`. */
  predicate HasSuffix(s: string, suffix: string)
  {
    |suffix| <= |s| && s[|s| - |suffix|..] == suffix
  }

  predicate IsToml(name: string)
  {
    HasSuffix(name, ".toml")
  }

  /** The loop over the directory listing (lines 73-92), with the resources
      collected so far in `acc`. */
  function MergeEntries<T, B, E>(acc: seq<Resource<T, B>>, entries: seq<DirEntry<T, B, E>>): (r: Loaded<T, B, E>)
    ensures acc <= r.resources
    ensures forall k :: |acc| <= k < |r.resources| ==> |r.resources[k].templates| > 0
    decreases entries
  {
    if entries == [] then Loaded(acc)
    else
      var f := entries[0];
      if !IsToml(f.name) then MergeEntries(acc, entries[1..])
      else if f.readError.Some? then Aborted(acc, f.readError.value)
      else if f.parsed.Failure? then Aborted(acc, f.parsed.error)
      else if |f.parsed.value.templates| > 0 then MergeEntries(acc + [f.parsed.value], entries[1..])
      else MergeEntries(acc, entries[1..])
  }

  /** Lines 68-93: nothing to merge without an include directory; a directory
      that cannot be listed aborts loading with that error. The primary
      resources always stay in front, unchanged. */
  function MergeIncludes<T, B, E>(primary: seq<Resource<T, B>>, includeDir: string,
                                  listing: Result<seq<DirEntry<T, B, E>>, E>): (r: Loaded<T, B, E>)
    ensures primary <= r.resources
    ensures forall k :: |primary| <= k < |r.resources| ==> |r.resources[k].templates| > 0
    ensures includeDir == "" ==> r == Loaded(primary)
    ensures includeDir != "" && listing.Failure? ==> r == Aborted(primary, listing.error)
  {
    if includeDir == "" then Loaded(primary)
    else match listing
      case Failure(e) => Aborted(primary, e)
      case Success(entries) => MergeEntries(primary, entries)
  }

  // ---------------------------------------------------------------------
  // A reference reading of a directory listing.

  /** The entry aborts loading: it is a `.toml` file that cannot be read or decoded. */
  predicate Fails<T, B, E>(f: DirEntry<T, B, E>)
  {
    IsToml(f.name) && (f.readError.Some? || f.parsed.Failure?)
  }

  /** No entry of the listing aborts loading. */
  predicate NoneFail<T, B, E>(entries: seq<DirEntry<T, B, E>>)
  {
    forall k :: 0 <= k < |entries| ==> !Fails(entries[k])
  }

  lemma NoneFailTail<T, B, E>(entries: seq<DirEntry<T, B, E>>)
    requires NoneFail(entries) && entries != []
    ensures !Fails(entries[0]) && NoneFail(entries[1..])
  {
    forall k | 0 <= k < |entries[1..]| ensures !Fails(entries[1..][k]) {
      assert entries[1..][k] == entries[k + 1];
    }
  }

  /** The error a failing entry aborts with: the read error comes first. */
  function FailureOf<T, B, E>(f: DirEntry<T, B, E>): E
    requires Fails(f)
  {
    if f.readError.Some? then f.readError.value else f.parsed.error
  }

  /** The resources the entries contribute, in listing order: the decoded
      resource of every `.toml` entry that reads and decodes and has templates. */
  function Kept<T, B, E>(entries: seq<DirEntry<T, B, E>>): seq<Resource<T, B>>
  {
    if entries == [] then []
    else
      var f := entries[0];
      (if IsToml(f.name) && f.readError.None? && f.parsed.Success? && |f.parsed.value.templates| > 0
       then [f.parsed.value] else [])
      + Kept(entries[1..])
  }

  /** Only the `.toml` entries of a listing: an order-preserving filter, which
      keeps every `.toml` entry as often as it occurs (`TomlOnlyDistributes`). */
  function TomlOnly<T, B, E>(entries: seq<DirEntry<T, B, E>>): (r: seq<DirEntry<T, B, E>>)
    ensures forall k :: 0 <= k < |r| ==> IsToml(r[k].name)
    ensures forall k :: 0 <= k < |r| ==> r[k] in entries
    ensures forall k :: 0 <= k < |entries| && IsToml(entries[k].name) ==> entries[k] in r
  {
    if entries == [] then []
    else (if IsToml(entries[0].name) then [entries[0]] else []) + TomlOnly(entries[1..])
  }

  lemma {:induction false} KeptDistributes<T, B, E>(p: seq<DirEntry<T, B, E>>, q: seq<DirEntry<T, B, E>>)
    ensures Kept(p + q) == Kept(p) + Kept(q)
  {
    if p == [] {
      assert p + q == q;
    } else {
      assert (p + q)[0] == p[0];
      assert (p + q)[1..] == p[1..] + q;
      KeptDistributes(p[1..], q);
    }
  }

  /** Filtering a concatenation filters each part in place, so the `.toml`
      entries keep their relative order and their multiplicity. */
  lemma {:induction false} TomlOnlyDistributes<T, B, E>(p: seq<DirEntry<T, B, E>>, q: seq<DirEntry<T, B, E>>)
    ensures TomlOnly(p + q) == TomlOnly(p) + TomlOnly(q)
  {
    if p == [] {
      assert p + q == q;
    } else {
      assert (p + q)[0] == p[0];
      assert (p + q)[1..] == p[1..] + q;
      TomlOnlyDistributes(p[1..], q);
    }
  }

  /** Entries whose name does not end in ".toml" are never read or decoded:
      dropping them, whatever their read and decode outcomes, changes nothing. */
  lemma {:induction false} OnlyTomlEntriesMatter<T, B, E>(acc: seq<Resource<T, B>>, entries: seq<DirEntry<T, B, E>>)
    ensures MergeEntries(acc, entries) == MergeEntries(acc, TomlOnly(entries))
    decreases entries
  {
    if entries != [] {
      var f := entries[0];
      if IsToml(f.name) {
        var t := TomlOnly(entries);
        assert t[0] == f && t[1..] == TomlOnly(entries[1..]);
        if f.readError.None? && f.parsed.Success? {
          if |f.parsed.value.templates| > 0 {
            OnlyTomlEntriesMatter(acc + [f.parsed.value], entries[1..]);
          } else {
            OnlyTomlEntriesMatter(acc, entries[1..]);
          }
        }
      } else {
        assert TomlOnly(entries) == TomlOnly(entries[1..]);
        OnlyTomlEntriesMatter(acc, entries[1..]);
      }
    }
  }

  /** Without a failing entry the merge succeeds, and appends exactly the
      kept resources after the ones already collected, in listing order. */
  lemma {:induction false} MergeSucceeds<T, B, E>(acc: seq<Resource<T, B>>, entries: seq<DirEntry<T, B, E>>)
    requires NoneFail(entries)
    ensures MergeEntries(acc, entries) == Loaded(acc + Kept(entries))
    decreases entries
  {
    if entries == [] {
      assert acc + [] == acc;
    } else {
      var f := entries[0];
      NoneFailTail(entries);
      var tail := entries[1..];
      if IsToml(f.name) && |f.parsed.value.templates| > 0 {
        var v := f.parsed.value;
        assert Kept(entries) == [v] + Kept(tail);
        assert MergeEntries(acc, entries) == MergeEntries(acc + [v], tail);
        MergeSucceeds(acc + [v], tail);
        assert (acc + [v]) + Kept(tail) == acc + Kept(entries);
      } else {
        assert Kept(entries) == [] + Kept(tail) == Kept(tail);
        assert MergeEntries(acc, entries) == MergeEntries(acc, tail);
        MergeSucceeds(acc, tail);
      }
    }
  }

  /** The first failing entry aborts the merge with its own error; the
      resources kept from the entries before it stay appended. */
  lemma {:induction false} MergeAbortsAtFirstFailure<T, B, E>(acc: seq<Resource<T, B>>, p: seq<DirEntry<T, B, E>>,
                                                             f: DirEntry<T, B, E>, rest: seq<DirEntry<T, B, E>>)
    requires NoneFail(p) && Fails(f)
    ensures MergeEntries(acc, p + [f] + rest) == Aborted(acc + Kept(p), FailureOf(f))
    decreases p
  {
    var entries := p + [f] + rest;
    if p == [] {
      assert entries[0] == f;
      assert acc + Kept(p) == acc;
    } else {
      var g, tail := p[0], p[1..];
      NoneFailTail(p);
      assert entries[0] == g && entries[1..] == tail + [f] + rest;
      if IsToml(g.name) && |g.parsed.value.templates| > 0 {
        var v := g.parsed.value;
        assert MergeEntries(acc, entries) == MergeEntries(acc + [v], entries[1..]);
        assert Kept(p) == [v] + Kept(tail);
        MergeAbortsAtFirstFailure(acc + [v], tail, f, rest);
        assert acc + [v] + Kept(tail) == acc + Kept(p);
      } else {
        assert MergeEntries(acc, entries) == MergeEntries(acc, entries[1..]);
        assert Kept(p) == [] + Kept(tail) == Kept(tail);
        MergeAbortsAtFirstFailure(acc, tail, f, rest);
      }
    }
  }

  /** Loading aborts exactly when some entry of a listed directory fails. */
  lemma {:induction false} MergeAbortsIffSomeFailure<T, B, E>(acc: seq<Resource<T, B>>, entries: seq<DirEntry<T, B, E>>)
    ensures MergeEntries(acc, entries).Aborted? <==> exists k :: 0 <= k < |entries| && Fails(entries[k])
    decreases entries
  {
    if entries != [] {
      var f := entries[0];
      var tail := entries[1..];
      assert (exists k :: 0 <= k < |entries| && Fails(entries[k]))
         <==> Fails(f) || exists k :: 0 <= k < |tail| && Fails(tail[k]) by {
        if exists k :: 0 <= k < |entries| && Fails(entries[k]) {
          var k :| 0 <= k < |entries| && Fails(entries[k]);
          if k > 0 { assert tail[k - 1] == entries[k]; }
        }
        if exists k :: 0 <= k < |tail| && Fails(tail[k]) {
          var k :| 0 <= k < |tail| && Fails(tail[k]);
          assert entries[k + 1] == tail[k];
        }
      }
      if !Fails(f) {
        if IsToml(f.name) && |f.parsed.value.templates| > 0 {
          MergeAbortsIffSomeFailure(acc + [f.parsed.value], tail);
        } else {
          MergeAbortsIffSomeFailure(acc, tail);
        }
      }
    }
  }
}
