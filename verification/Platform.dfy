/**
 The values the miner exchanges with a streaming platform
 (internal/platform/types.go), cut down to the fields the models read.
 Times are whole nanoseconds; None stands for Go's zero time.
 */
module Platform {

  datatype Option<+T> = None | Some(value: T)

  const SECOND: int := 1_000_000_000
  const MINUTE: int := 60 * SECOND

  datatype Benefit = Benefit(id: string, name: string, required: int, preconditions: seq<string>)

  /**
   `linkPage` says that the campaign's link page is a publisher's (ExternalLinkURL), `claimNeedsLink` that
   the platform refuses its claims until the account is linked.
   */
  datatype Campaign = Campaign(
    id: string, platform: string, game: string, status: string, kind: string,
    endsAt: Option<int>, allowedChannels: seq<string>, benefits: seq<Benefit>,
    accountLinked: bool, linkChecked: bool, linkPage: bool, claimNeedsLink: bool)

  datatype Progress = Progress(benefit: string, minutes: int, claimed: bool)

  datatype Stream = Stream(channel: string, channelId: string, viewers: int)

  /** Channel points modes. An unknown stored mode behaves as Off. */
  datatype PointsMode = Off | DropsPoints | PointsOnly {
    predicate On() { this != Off }
  }

  function Max(a: int, b: int): int { if a < b then b else a }

  function Min(a: int, b: int): int { if a < b then a else b }

  /** A time cut to whole seconds. */
  function Seconds(t: int): int { t - t % 1_000_000_000 }

  predicate Distinct<T(==)>(s: seq<T>) {
    forall i, j :: 0 <= i < j < |s| ==> s[i] != s[j]
  }

  /** An answer from outside: any value at all. */
  method Any<T(0)>() returns (x: T) {
    x := *;
  }

  /** Lower-casing, for the ASCII letters. */
  function Lower(s: string): string {
    seq(|s|, i requires 0 <= i < |s| =>
      if 'A' <= s[i] <= 'Z' then (s[i] as int - 'A' as int + 'a' as int) as char else s[i])
  }
}
