/** What one session shows of itself: its open subscriptions by run, and the runs the registry indexes. */
module SessionViews {
  import opened Subscriptions

  /** Runs are all those with an index entry, mine those whose entry leads to this session. */
  datatype View = View(open: bool, subs: map<string, Sub>, runs: set<string>, mine: set<string>)

  function Subscribed(v: View, run: string, durable: bool): View {
    if !v.open || run == "" then v
    else v.(subs := v.subs[run := Fresh(run, durable)], runs := v.runs + {run}, mine := v.mine + {run})
  }

  function Dropped(v: View, run: string): View {
    v.(subs := v.subs - {run}, runs := v.runs - {run}, mine := v.mine - {run})
  }

  /** The frame goes to its run's subscription, which is dropped if that closed it. */
  function Dispatched(v: View, f: Frame): View {
    if f.run !in v.subs then v
    else
      var sub := Offer(v.subs[f.run], f);
      if sub.closed then Dropped(v, f.run) else v.(subs := v.subs[f.run := sub])
  }
}
