/** The shard files `train_lora` opens for each client (src/optim/lora.py:39-45):
    three files per client index under the dataset directory, their names,
    and the order in which they are opened. */
module Shards {
  import opened Base

  /** The three shards of a client; `Val` is read from the `test_` file and
      `Ref` from the `valid_` file, as the source's dictionary keys do. */
  datatype Kind = Train | Val | Ref

  function Prefix(k: Kind): string
  {
    match k
    case Train => "train_"
    case Val => "test_"
    case Ref => "valid_"
  }

  /** `"<prefix>{}.bin".format(i)`. */
  function ShardName(k: Kind, i: nat): (name: string)
    ensures |name| == |Prefix(k)| + |NatToString(i)| + 4
    ensures name[..|Prefix(k)|] == Prefix(k)
    ensures name[|name| - 4..] == ".bin"
  {
    Prefix(k) + NatToString(i) + ".bin"
  }

  /** `os.path.join(data_path, ShardName(k, i))`. */
  function ShardPath(dataPath: string, k: Kind, i: nat): (p: string)
    ensures |p| >= |dataPath| + |ShardName(k, i)|
    ensures p[..|dataPath|] == dataPath
    ensures p[|p| - |ShardName(k, i)|..] == ShardName(k, i)
  {
    PathJoin(dataPath, ShardName(k, i))
  }

  /** The digits between the prefix and the extension. */
  function IndexDigits(k: Kind, name: string): string
    requires |name| >= |Prefix(k)| + 4
  {
    name[|Prefix(k)|..|name| - 4]
  }

  /** The client index is read back from a shard's file name. */
  lemma ShardIndexRoundTrip(k: Kind, i: nat)
    ensures IndexDigits(k, ShardName(k, i)) == NatToString(i)
    ensures ParseDigits(IndexDigits(k, ShardName(k, i))) == i
  {
    var name := ShardName(k, i);
    assert name == Prefix(k) + NatToString(i) + ".bin";
    assert name[|Prefix(k)|..|name| - 4] == NatToString(i);
    ParseNatToString(i);
  }

  /** Different prefixes already differ in one of their first two characters. */
  lemma PrefixesDiffer(k: Kind, l: Kind)
    requires k != l
    ensures Prefix(k)[0] != Prefix(l)[0] || Prefix(k)[1] != Prefix(l)[1]
  {
  }

  /** No two (kind, client) pairs share a file name. */
  lemma ShardNameInjective(k: Kind, i: nat, l: Kind, j: nat)
    ensures ShardName(k, i) == ShardName(l, j) ==> k == l && i == j
  {
    var x, y := ShardName(k, i), ShardName(l, j);
    if x == y {
      if k != l {
        PrefixesDiffer(k, l);
        assert false;
      }
      ShardIndexRoundTrip(k, i);
      ShardIndexRoundTrip(l, j);
    }
  }

  /** Under one dataset directory, every client's three shards are distinct
      files and no two clients share a shard. */
  lemma ShardPathInjective(dataPath: string, k: Kind, i: nat, l: Kind, j: nat)
    ensures ShardPath(dataPath, k, i) == ShardPath(dataPath, l, j) ==> k == l && i == j
  {
    PathJoinInjective(dataPath, ShardName(k, i), ShardName(l, j));
    ShardNameInjective(k, i, l, j);
  }

  /** Position of a kind among one client's three `np.memmap` calls (lines 43-45). */
  function KindRank(k: Kind): nat
  {
    match k
    case Train => 0
    case Val => 1
    case Ref => 2
  }

  /** Shard (j, l) is opened before shard (i, k): clients in index order, and
      within one client the train, test and valid files in that order. */
  predicate OpenedBefore(j: nat, l: Kind, i: nat, k: Kind)
  {
    j < i || (j == i && KindRank(l) < KindRank(k))
  }

  /** The loading order is total: of two different shards, one is opened first. */
  lemma OpenedBeforeTotal(j: nat, l: Kind, i: nat, k: Kind)
    ensures (j, l) == (i, k) || OpenedBefore(j, l, i, k) || OpenedBefore(i, k, j, l)
    ensures !(OpenedBefore(j, l, i, k) && OpenedBefore(i, k, j, l))
  {
    if j == i && KindRank(l) == KindRank(k) {
      match l
      case Train => assert k == Train;
      case Val => assert k == Val;
      case Ref => assert k == Ref;
    }
  }

  /** The first index from i on, below n, whose shard of kind k is not among
      the files of the data directory; n when they are all there. */
  function FirstAbsent(files: map<string, nat>, dataPath: string, k: Kind, i: nat, n: nat): (m: nat)
    requires i <= n
    ensures i <= m <= n
    ensures forall j :: i <= j < m ==> ShardPath(dataPath, k, j) in files
    ensures m < n ==> ShardPath(dataPath, k, m) !in files
    decreases n - i
  {
    if i == n then n
    else if ShardPath(dataPath, k, i) in files then FirstAbsent(files, dataPath, k, i + 1, n)
    else i
  }
}
