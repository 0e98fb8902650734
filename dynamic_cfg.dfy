/** Dynamic configuration of a dnode from the management node: a configuration
    string names an option (`unremove`, `score`, `bandwidth`) that the management node
    applies to its own dnode record; any other option is handed to the local
    configuration system. The tokenizer is not modelled: the option token and the
    token after it are inputs. */
module DynamicCfg {
  import opened Wire
  import opened MgmtMsg

  const UNREMOVE: string := "unremove"
  const SCORE: string := "score"
  const BANDWIDTH: string := "bandwidth"

  const BALANCE_DELAY: int := 15
  const MAX_BANDWIDTH_MB: int := 10000000

  function ToLower(c: char): char {
    if 'A' <= c <= 'Z' then (c as int + 32) as char else c
  }

  /** `strncasecmp(option, keyword, |keyword|) == 0` where `option` points at a token
      followed by a delimiter or the end of the string: the token starts with the
      keyword, ASCII case ignored. */
  predicate MatchesOption(token: string, keyword: string) {
    |keyword| <= |token| && forall i :: 0 <= i < |keyword| ==> ToLower(token[i]) == ToLower(keyword[i])
  }

  // ---------------------------------------------------------------- atoi

  predicate IsSpace(c: char) {
    c == ' ' || c == '\t' || c == '\n' || c == '\r' || c == '\U{0B}' || c == '\U{0C}'
  }

  predicate IsDigit(c: char) {
    '0' <= c <= '9'
  }

  function SkipSpaces(s: string): (t: string)
    ensures |t| <= |s| && t == s[|s| - |t|..]
    ensures t != [] ==> !IsSpace(t[0])
  {
    if |s| > 0 && IsSpace(s[0]) then SkipSpaces(s[1..]) else s
  }

  /** The value of the digits `s` starts with, appended to `acc`. */
  function DigitsValue(s: string, acc: nat): nat {
    if |s| > 0 && IsDigit(s[0]) then DigitsValue(s[1..], acc * 10 + (s[0] as int - '0' as int)) else acc
  }

  /** C's `atoi`: leading white space, an optional sign, then decimal digits. The
      result is the mathematical value; C leaves it undefined outside `int`'s range. */
  function Atoi(s: string): int {
    var t := SkipSpaces(s);
    if |t| > 0 && t[0] == '-' then -(DigitsValue(t[1..], 0) as int)
    else if |t| > 0 && t[0] == '+' then DigitsValue(t[1..], 0)
    else DigitsValue(t, 0)
  }

  predicate FitsInt32(v: int) {
    -0x8000_0000 <= v < 0x8000_0000
  }

  /** A token that starts with a letter converts to 0. */
  lemma AtoiOfWord(s: string)
    requires |s| > 0 && ('a' <= s[0] <= 'z' || 'A' <= s[0] <= 'Z')
    ensures Atoi(s) == 0
  {
    assert !IsSpace(s[0]) && !IsDigit(s[0]) && s[0] != '-' && s[0] != '+';
    assert SkipSpaces(s) == s;
    assert DigitsValue(s, 0) == 0;
  }

  // ---------------------------------------------------------------- the option parser

  /** Calls the parser makes to collaborators, in order. */
  datatype CfgEffect =
    | SetUnRemove(ip: uint32)       // mgmtSetDnodeUnRemove
    | UpdateDnode(ip: uint32)       // mgmtUpdateDnode: persist the record
    | StartBalanceTimer(delay: int) // mgmtStartBalanceTimer
    | LocalConfig(config: string)   // tsCfgDynamicOptions

  /** The parser's return: a result code, or -1 when it does not handle the option. */
  datatype OptionResult = Handled(code: Code) | NotHandled

  /** The fields of the dnode record the parser may change. */
  datatype DnodeCfg = DnodeCfg(customScore: int32, bandwidthMb: int32)

  datatype OptionStep = OptionStep(result: OptionResult, cfg: DnodeCfg, effects: seq<CfgEffect>)

  /** `atoi` of the score value is defined (C leaves overflow undefined). */
  predicate ScoreValueDefined(option: string, value: string) {
    MatchesOption(option, SCORE) && |value| > 0 ==> FitsInt32(Atoi(value))
  }

  /** The parser on dnode `ip` whose record holds `d`, given the first token of the
      configuration string (`option`) and the token after it (`value`). The options are
      tried in the order unremove, score, bandwidth. The bandwidth branch takes its
      value token from the start of the string again, that is, the option token. */
  function DynamicOption(ip: uint32, option: string, value: string, d: DnodeCfg): (s: OptionStep)
    requires ScoreValueDefined(option, value)
    ensures MatchesOption(option, UNREMOVE) ==> s == OptionStep(Handled(Success), d, [SetUnRemove(ip)])
    ensures !MatchesOption(option, UNREMOVE) && MatchesOption(option, SCORE) ==>
              s.result == Handled(InvalidSql)
              && (|value| > 0 ==> s.cfg == d.(customScore := Atoi(value))
                                  && s.effects == [UpdateDnode(ip), StartBalanceTimer(BALANCE_DELAY)])
              && (|value| == 0 ==> s.cfg == d && s.effects == [])
    ensures !MatchesOption(option, UNREMOVE) && !MatchesOption(option, SCORE) && MatchesOption(option, BANDWIDTH) ==>
              (s.result == Handled(Success) <==> 0 <= Atoi(option) < MAX_BANDWIDTH_MB)
              && (s.result == Handled(Success) ==> s.cfg == d.(bandwidthMb := Atoi(option)) && s.effects == [UpdateDnode(ip)])
              && (s.result != Handled(Success) ==> s.result == Handled(InvalidSql) && s.cfg == d && s.effects == [])
    ensures s.result == NotHandled <==>
              !MatchesOption(option, UNREMOVE) && !MatchesOption(option, SCORE) && !MatchesOption(option, BANDWIDTH)
    ensures s.result == NotHandled ==> s.cfg == d && s.effects == []
    ensures s.cfg.bandwidthMb != d.bandwidthMb ==> 0 <= s.cfg.bandwidthMb < MAX_BANDWIDTH_MB
  {
    if MatchesOption(option, UNREMOVE) then
      OptionStep(Handled(Success), d, [SetUnRemove(ip)])
    else if MatchesOption(option, SCORE) then
      if |value| > 0 then
        OptionStep(Handled(InvalidSql), d.(customScore := Atoi(value)), [UpdateDnode(ip), StartBalanceTimer(BALANCE_DELAY)])
      else
        OptionStep(Handled(InvalidSql), d, [])
    else if MatchesOption(option, BANDWIDTH) then
      var token := option;
      var mb := Atoi(token);
      if |token| > 0 && 0 <= mb < MAX_BANDWIDTH_MB then
        OptionStep(Handled(Success), d.(bandwidthMb := mb), [UpdateDnode(ip)])
      else
        OptionStep(Handled(InvalidSql), d, [])
    else
      OptionStep(NotHandled, d, [])
  }

  /** Because the bandwidth branch converts the option token itself, every `bandwidth`
      option succeeds and sets the dnode's bandwidth to 0, whatever value follows it. */
  lemma BandwidthAlwaysSetsZero(ip: uint32, option: string, value: string, d: DnodeCfg)
    requires MatchesOption(option, BANDWIDTH)
    ensures ScoreValueDefined(option, value)
    ensures var s := DynamicOption(ip, option, value, d);
            s.result == Handled(Success) && s.cfg == d.(bandwidthMb := 0) && s.effects == [UpdateDnode(ip)]
  {
    assert ToLower(option[0]) == 'b';
    assert !MatchesOption(option, UNREMOVE) by { assert ToLower(option[0]) != ToLower(UNREMOVE[0]); }
    assert !MatchesOption(option, SCORE) by { assert ToLower(option[0]) != ToLower(SCORE[0]); }
    AtoiOfWord(option);
  }

  /** At most one of the three options matches a token, so the order in which they are
      tried never decides between two of them. */
  lemma OptionsExclusive(option: string)
    ensures !(MatchesOption(option, UNREMOVE) && MatchesOption(option, SCORE))
    ensures !(MatchesOption(option, UNREMOVE) && MatchesOption(option, BANDWIDTH))
    ensures !(MatchesOption(option, SCORE) && MatchesOption(option, BANDWIDTH))
  {
    if |option| > 0 {
      assert ToLower(UNREMOVE[0]) == 'u' && ToLower(SCORE[0]) == 's' && ToLower(BANDWIDTH[0]) == 'b';
    }
  }

  // ---------------------------------------------------------------- the dnode record

  /** The management node's record of a dnode; the parser updates its score and
      bandwidth in place. */
  class Dnode {
    const privateIp: uint32
    var customScore: int32
    var bandwidthMb: int32

    function Cfg(): DnodeCfg
      reads this
    {
      DnodeCfg(customScore, bandwidthMb)
    }

    constructor (ip: uint32, customScore: int32, bandwidthMb: int32)
      ensures privateIp == ip && Cfg() == DnodeCfg(customScore, bandwidthMb)
    {
      privateIp := ip;
      this.customScore, this.bandwidthMb := customScore, bandwidthMb;
    }
  }

  /** Applies a dynamic option to dnode `d` in place. */
  method CfgDynamicOptions(d: Dnode, option: string, value: string) returns (r: OptionResult, effects: seq<CfgEffect>)
    requires ScoreValueDefined(option, value)
    modifies d
    ensures var s := DynamicOption(d.privateIp, option, value, old(d.Cfg()));
            r == s.result && d.Cfg() == s.cfg && effects == s.effects
    ensures d.bandwidthMb != old(d.bandwidthMb) ==> 0 <= d.bandwidthMb < MAX_BANDWIDTH_MB
  {
    if MatchesOption(option, UNREMOVE) {
      return Handled(Success), [SetUnRemove(d.privateIp)];
    } else if MatchesOption(option, SCORE) {
      effects := [];
      if |value| > 0 {
        var score := Atoi(value);
        d.customScore := score;
        effects := [UpdateDnode(d.privateIp), StartBalanceTimer(BALANCE_DELAY)];
      }
      return Handled(InvalidSql), effects;
    } else if MatchesOption(option, BANDWIDTH) {
      var token := option;
      if |token| > 0 {
        var mb := Atoi(token);
        if 0 <= mb < MAX_BANDWIDTH_MB {
          d.bandwidthMb := mb;
          return Handled(Success), [UpdateDnode(d.privateIp)];
        }
      }
      return Handled(InvalidSql), [];
    }
    return NotHandled, [];
  }

  /** A `cfg dnode` request: the dnode's address and its configuration string. */
  datatype CfgDnodeMsg = CfgDnodeMsg(ip: uint32, config: string)

  /** Entry point: an unknown dnode is `NotConfigured` and nothing is parsed; a handled
      option returns the parser's code; an unhandled one is passed to the local
      configuration system and the request succeeds. */
  method SendCfgDnodeMsg(dnodes: map<uint32, Dnode>, msg: CfgDnodeMsg, option: string, value: string)
    returns (code: Code, effects: seq<CfgEffect>)
    requires msg.ip in dnodes ==> ScoreValueDefined(option, value)
    modifies if msg.ip in dnodes then {dnodes[msg.ip]} else {}
    ensures msg.ip !in dnodes ==> code == NotConfigured && effects == []
    ensures msg.ip in dnodes ==>
              var s := DynamicOption(dnodes[msg.ip].privateIp, option, value, old(dnodes[msg.ip].Cfg()));
              dnodes[msg.ip].Cfg() == s.cfg
              && (s.result.Handled? ==> code == s.result.code && effects == s.effects)
              && (s.result == NotHandled ==> code == Success && effects == [LocalConfig(msg.config)])
  {
    if msg.ip !in dnodes {
      return NotConfigured, [];
    }
    var d := dnodes[msg.ip];
    var r;
    r, effects := CfgDynamicOptions(d, option, value);
    if r.Handled? {
      return r.code, effects;
    }
    code, effects := Success, effects + [LocalConfig(msg.config)];
  }
}
