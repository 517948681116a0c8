/** The agent card of the dashboard: the agent's profit and loss, its colour
    and text, the balance line, and the start/pause button with its busy flag.
    Number formatting is a parameter (`fmt` for the locale amount,
    `fmtPercent` and `formatUSD` for the project's formatters). */
module AgentCard {
  import opened Common

  /** The fields of an agent the card reads. `equity`, `totalBalance` and
      `performance` may be missing. */
  datatype Agent = Agent(
    id: nat,
    name: string,
    isRunning: bool,
    equity: Option<real>,
    totalBalance: Option<real>,
    performance: Option<real>)

  /** The equity, a missing one read as 0. */
  function EquityOf(agent: Agent): real {
    agent.equity.GetOr(0.0)
  }

  /** The total balance, a missing one read as 0. */
  function BalanceOf(agent: Agent): real {
    agent.totalBalance.GetOr(0.0)
  }

  /** Profit and loss: 0 for an agent without equity, the balance over the
      equity otherwise. */
  function Pnl(agent: Agent): (r: real)
    ensures EquityOf(agent) != 0.0 ==> r + EquityOf(agent) == BalanceOf(agent)
    ensures r == 0.0 <==> EquityOf(agent) == 0.0 || BalanceOf(agent) == EquityOf(agent)
    ensures r > 0.0 <==> EquityOf(agent) != 0.0 && BalanceOf(agent) > EquityOf(agent)
    ensures r < 0.0 <==> EquityOf(agent) != 0.0 && BalanceOf(agent) < EquityOf(agent)
  {
    var equity := EquityOf(agent);
    var balance := BalanceOf(agent);
    if equity == 0.0 then 0.0 else balance - equity
  }

  /** The performance ratio as a percentage, 0 when it is missing or zero. */
  function PnlPercent(agent: Agent): (r: real)
    ensures r == 100.0 * agent.performance.GetOr(0.0)
    ensures r == 0.0 <==> agent.performance.None? || agent.performance.value == 0.0
  {
    var performance := agent.performance.GetOr(0.0);
    if performance == 0.0 then 0.0 else performance * 100.0
  }

  /** The colour: gray for no profit or loss, green for a profit, red for a loss. */
  function PnlTone(pnl: real): (r: Tone)
    ensures r == Gray <==> pnl == 0.0
    ensures r == Green <==> pnl > 0.0
    ensures r == Red <==> pnl < 0.0
  {
    if pnl == 0.0 then Gray else if pnl > 0.0 then Green else Red
  }

  /** The text: a dash for no profit or loss; otherwise the formatted amount,
      with a `+` added only for a profit, and the formatted percentage in
      parentheses (again with a `+` only for a profit). */
  function PnlText(pnl: real, percent: real, fmt: real -> string, fmtPercent: real -> string): (r: string)
    ensures r == "-" <==> pnl == 0.0
    ensures pnl > 0.0 ==> var amount := "+" + fmt(pnl);
                          |r| == |amount| + 3 + |fmtPercent(percent)| + 1
                          && r[..|amount|] == amount && r[|amount|..|amount| + 3] == " (+"
    ensures pnl < 0.0 ==> var amount := fmt(pnl);
                          |r| == |amount| + 2 + |fmtPercent(percent)| + 1
                          && r[..|amount|] == amount && r[|amount|..|amount| + 2] == " ("
    ensures pnl != 0.0 ==> var tail := fmtPercent(percent) + ")";
                           |r| >= |tail| && r[|r| - |tail|..] == tail
  {
    if pnl == 0.0 then "-"
    else if pnl > 0.0 then "+" + fmt(pnl) + " (+" + fmtPercent(percent) + ")"
    else fmt(pnl) + " (" + fmtPercent(percent) + ")"
  }

  /** Text and colour agree on an agent: the dash and gray go together, and
      both mean the agent has no equity or a balance equal to it. */
  lemma CardPnlSummary(agent: Agent, fmt: real -> string, fmtPercent: real -> string)
    ensures var text := PnlText(Pnl(agent), PnlPercent(agent), fmt, fmtPercent);
            (text == "-" <==> PnlTone(Pnl(agent)) == Gray)
            && (text == "-" <==> EquityOf(agent) == 0.0 || BalanceOf(agent) == EquityOf(agent))
  {
  }

  /** The card's colour class is gray exactly for no profit or loss, green
      exactly for a profit and red exactly for a loss. */
  lemma CardColorClass(agent: Agent)
    ensures var cls := PnlTone(Pnl(agent)).ClassName();
            (cls == "text-gray-500" <==> Pnl(agent) == 0.0)
            && (cls == "text-green-600" <==> Pnl(agent) > 0.0)
            && (cls == "text-red-500" <==> Pnl(agent) < 0.0)
  {
  }

  /** The balance line: the formatted total balance with " USD", or "$0.00"
      when the total balance is missing or zero. A formatted balance always
      ends in " USD", so the fallback can never be mistaken for one,
      whatever the formatter returns. */
  function BalanceText(agent: Agent, formatUSD: real -> string): (r: string)
    ensures agent.totalBalance.Some? && agent.totalBalance.value != 0.0 ==>
              r == formatUSD(agent.totalBalance.value) + " USD"
    ensures r == "$0.00" <==> agent.totalBalance.None? || agent.totalBalance.value == 0.0
  {
    if agent.totalBalance.Some? && agent.totalBalance.value != 0.0 then
      var r := formatUSD(agent.totalBalance.value) + " USD";
      assert r[|r| - 1] == 'D';
      r
    else "$0.00"
  }

  /** The button label: "Pause" for a running agent, "Start" for a stopped one. */
  function ButtonLabel(isRunning: bool): (r: string)
    ensures r == "Pause" <==> isRunning
    ensures r == "Start" <==> !isRunning
  {
    if isRunning then "Pause" else "Start"
  }

  /** The message shown while the toggle is pending: an action in progress,
      ending in an ellipsis. */
  function PendingMessage(isRunning: bool): (r: string)
    ensures |r| > 3 && r[|r| - 3..] == "..."
    ensures r == "Pausing..." <==> isRunning
    ensures r == "Starting..." <==> !isRunning
  {
    if isRunning then "Pausing..." else "Starting..."
  }

  /** The pending message names the same action as the button label. */
  lemma PendingMessageMatchesLabel(isRunning: bool)
    ensures PendingMessage(isRunning)[..4] == ButtonLabel(isRunning)[..4]
    ensures isRunning <==> ButtonLabel(isRunning) == "Pause"
  {
  }

  /** The number a string of decimal digits spells. */
  function DigitsValue(s: string): nat
    requires forall i :: 0 <= i < |s| ==> '0' <= s[i] <= '9'
    decreases |s|
  {
    if s == [] then 0
    else DigitsValue(s[..|s| - 1]) * 10 + (s[|s| - 1] as int - '0' as int)
  }

  /** The decimal digit of a value below ten. */
  function Digit(d: nat): (c: char)
    requires d < 10
    ensures '0' <= c <= '9' && c as int - '0' as int == d
  {
    (d + '0' as int) as char
  }

  /** Decimal digits of an agent id, as a template literal renders it: a
      non-empty digit string that spells the id, with no leading zero. */
  function DecimalText(n: nat): (r: string)
    ensures |r| > 0
    ensures forall i :: 0 <= i < |r| ==> '0' <= r[i] <= '9'
    ensures DigitsValue(r) == n
    ensures |r| == 1 || r[0] != '0'
    decreases n
  {
    if n < 10 then [Digit(n)]
    else
      var front := DecimalText(n / 10);
      assert |front| == 1 ==> DigitsValue(front) == front[0] as int - '0' as int by {
        if |front| == 1 {
          assert front[..0] == [];
        }
      }
      var r := front + [Digit(n % 10)];
      assert r[..|r| - 1] == front;
      r
  }

  /** The message the toggle ends with, a success embedding the status the
      callback returned. */
  function ToggleMessage(agentId: nat, outcome: Outcome<string>): (r: string)
    ensures outcome.Rejected? ==> r == "Toggle start/pause failed!"
    ensures outcome.Resolved? ==>
              var prefix := "Agent " + DecimalText(agentId) + " is ";
              |r| == |prefix| + |outcome.value| + 1 && r[..|prefix|] == prefix
              && r[|prefix|..|r| - 1] == outcome.value && r[|r| - 1] == '!'
  {
    match outcome
    case Resolved(status) => "Agent " + DecimalText(agentId) + " is " + status + "!"
    case Rejected => "Toggle start/pause failed!"
  }

  /** A started toggle: the arguments the callback is called with and the
      message shown while it is pending. */
  datatype PendingToggle = PendingToggle(agentId: nat, isRunning: bool, message: string)

  /** The card's own state: the agent it shows, which it only reads, and the
      busy flag of the start/pause button. */
  class AgentCardView {
    const agent: Agent
    var isLoading: bool

    constructor (agent: Agent)
      ensures this.agent == agent && !isLoading
    {
      this.agent := agent;
      isLoading := false;
    }

    /** The button is disabled exactly while a toggle is pending. */
    function ButtonDisabled(): bool
      reads this
    {
      isLoading
    }

    /** A press of the button. While a toggle is pending the button is
        disabled and the press does nothing; otherwise the flag goes up, the
        callback is called with the agent's id and `isRunning`, and the
        pending message is shown. */
    method Press() returns (pending: Option<PendingToggle>)
      modifies this
      ensures isLoading && ButtonDisabled()
      ensures old(isLoading) ==> pending == None
      ensures !old(isLoading) ==>
                pending == Some(PendingToggle(agent.id, agent.isRunning, PendingMessage(agent.isRunning)))
    {
      if isLoading {
        return None;
      }
      isLoading := true;
      pending := Some(PendingToggle(agent.id, agent.isRunning, PendingMessage(agent.isRunning)));
    }

    /** The callback settles: a resolution or a rejection is turned into a
        message (a rejection is caught, not rethrown), and the flag comes down. */
    method Settle(outcome: Outcome<string>) returns (message: string)
      requires isLoading
      modifies this
      ensures !isLoading && !ButtonDisabled()
      ensures message == ToggleMessage(agent.id, outcome)
    {
      message := ToggleMessage(agent.id, outcome);
      isLoading := false;
    }
  }
}
