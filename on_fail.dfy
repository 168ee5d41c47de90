/**
  The failure-cause selection of `_on_fail`: an `ExchangeStatus` carries nine
  boolean flags, and the reported cause is the first flag that is set, tested in
  a fixed priority order, or "unknown" when none is set.
 */
module FailureCauses {

  /** The outcome flags of one exchange attempt. */
  datatype ExchangeStatus = ExchangeStatus(
    networkError: bool,
    missingStoken: bool,
    missingMid: bool,
    missingAddress: bool,
    missingGameUid: bool,
    unsupportedGame: bool,
    failedGettingGameRecord: bool,
    initRequired: bool,
    accountNotFound: bool)

  /** The cause `_on_fail` reports: one per flag, plus `Unknown`. */
  datatype FailureCause =
    | NetworkError
    | MissingStoken
    | MissingMid
    | MissingAddress
    | MissingGameUid
    | UnsupportedGame
    | FailedGettingGameRecord
    | InitRequired
    | AccountNotFound
    | Unknown

  /** Number of flags in an `ExchangeStatus`. */
  const FlagCount: nat := 9

  /** The flags of `s`, listed in the order `_on_fail` tests them. */
  function Flags(s: ExchangeStatus): (f: seq<bool>)
    ensures |f| == FlagCount
  {
    [s.networkError, s.missingStoken, s.missingMid, s.missingAddress,
     s.missingGameUid, s.unsupportedGame, s.failedGettingGameRecord,
     s.initRequired, s.accountNotFound]
  }

  /** Position of a cause in the priority chain; `Unknown` comes after every flag. */
  function Rank(c: FailureCause): (k: nat)
    ensures k <= FlagCount
    ensures k == FlagCount <==> c == Unknown
  {
    match c
    case NetworkError => 0
    case MissingStoken => 1
    case MissingMid => 2
    case MissingAddress => 3
    case MissingGameUid => 4
    case UnsupportedGame => 5
    case FailedGettingGameRecord => 6
    case InitRequired => 7
    case AccountNotFound => 8
    case Unknown => 9
  }

  /** The cause at position `k` of the priority chain (the inverse of `Rank`). */
  function CauseAt(k: nat): (c: FailureCause)
    requires k <= FlagCount
    ensures Rank(c) == k
  {
    if k == 0 then NetworkError
    else if k == 1 then MissingStoken
    else if k == 2 then MissingMid
    else if k == 3 then MissingAddress
    else if k == 4 then MissingGameUid
    else if k == 5 then UnsupportedGame
    else if k == 6 then FailedGettingGameRecord
    else if k == 7 then InitRequired
    else if k == 8 then AccountNotFound
    else Unknown
  }

  /**
    The `if`/`elif` chain of `_on_fail`. Its contract: the chosen cause's flag is
    set (unless the cause is `Unknown`) and every flag tested before it is clear.
   */
  function Cause(s: ExchangeStatus): (c: FailureCause)
    ensures Rank(c) < FlagCount ==> Flags(s)[Rank(c)]
    ensures forall j :: 0 <= j < Rank(c) ==> !Flags(s)[j]
  {
    if s.networkError then NetworkError
    else if s.missingStoken then MissingStoken
    else if s.missingMid then MissingMid
    else if s.missingAddress then MissingAddress
    else if s.missingGameUid then MissingGameUid
    else if s.unsupportedGame then UnsupportedGame
    else if s.failedGettingGameRecord then FailedGettingGameRecord
    else if s.initRequired then InitRequired
    else if s.accountNotFound then AccountNotFound
    else Unknown
  }

  /** The reason text `_on_fail` logs for each cause. */
  function Reason(c: FailureCause): string
  {
    match c
    case NetworkError => "网络错误"
    case MissingStoken => "商品为游戏内物品，但 Cookies 缺少 stoken"
    case MissingMid => "商品为游戏内物品，但 stoken 为 'v2' 类型同时 Cookies 缺少 mid"
    case MissingAddress => "商品为实体物品，但未配置收货地址"
    case MissingGameUid => "商品为游戏内物品，但未配置对应游戏的账号UID"
    case UnsupportedGame => "暂不支持兑换对应分区/游戏的商品"
    case FailedGettingGameRecord => "获取用户 GameRecord 失败"
    case InitRequired => "未进行兑换任务初始化"
    case AccountNotFound => "账号不存在"
    case Unknown => "未知错误"
  }

  // ---------------------------------------------------------------------------
  // An independent reference definition: the index of the first set flag.

  /** Index of the first `true` in `f`, or `|f|` when there is none. */
  function FirstSet(f: seq<bool>): (k: nat)
    ensures k <= |f|
  {
    if f == [] then 0
    else if f[0] then 0
    else 1 + FirstSet(f[1..])
  }

  /** `FirstSet` finds a set flag, and every flag before it is clear. */
  lemma {:induction false} FirstSetIsFirst(f: seq<bool>)
    ensures FirstSet(f) < |f| ==> f[FirstSet(f)]
    ensures forall j :: 0 <= j < FirstSet(f) ==> !f[j]
  {
    if f != [] && !f[0] {
      FirstSetIsFirst(f[1..]);
      forall j | 0 <= j < FirstSet(f)
        ensures !f[j]
      {
        if j > 0 {
          assert f[j] == f[1..][j - 1];
        }
      }
    }
  }

  /** Any index that is set and preceded only by clear flags is `FirstSet`. */
  lemma FirstSetUnique(f: seq<bool>, k: nat)
    requires k <= |f|
    requires k < |f| ==> f[k]
    requires forall j :: 0 <= j < k ==> !f[j]
    ensures k == FirstSet(f)
  {
    FirstSetIsFirst(f);
  }

  /** The cause chosen by `_on_fail` is the one at the first set flag. */
  lemma CauseIsFirstSetFlag(s: ExchangeStatus)
    ensures Cause(s) == CauseAt(FirstSet(Flags(s)))
  {
    var c := Cause(s);
    FirstSetUnique(Flags(s), Rank(c));
    assert CauseAt(Rank(c)) == c;
  }

  /** The cause is `Unknown` exactly when no flag is set. */
  lemma UnknownIffNoFlag(s: ExchangeStatus)
    ensures Cause(s) == Unknown <==> forall j :: 0 <= j < FlagCount ==> !Flags(s)[j]
  {
  }

  /** A set flag wins over every flag tested after it: the cause comes no later. */
  lemma SetFlagBoundsCause(s: ExchangeStatus, j: nat)
    requires j < FlagCount && Flags(s)[j]
    ensures Rank(Cause(s)) <= j
  {
  }

  /**
    Flags tested after the chosen cause are never consulted: any status that
    agrees with `s` up to and including the cause's flag has the same cause.
   */
  lemma LaterFlagsIrrelevant(s: ExchangeStatus, t: ExchangeStatus)
    requires forall j :: 0 <= j <= Rank(Cause(s)) && j < FlagCount ==> Flags(s)[j] == Flags(t)[j]
    ensures Cause(t) == Cause(s)
  {
  }

  /** Distinct causes are logged with distinct reasons. */
  lemma ReasonInjective(c: FailureCause, d: FailureCause)
    requires c != d
    ensures Reason(c) != Reason(d)
  {
  }
}
