/** The branding worker's main loop: list the queue directory, keep the
    `.json` job files, take the first in sorted order, load it, process it
    and remove it, whatever the processing returned.

    The queue directory is a set of names; the parsed content of each job
    file is a map (a file that does not parse is absent from it). The time
    stamp of each job and the behaviour of its ffmpeg steps are inputs.
    The model drains the queue: it stops when no job file is left (the
    worker would sleep and look again) or when a job file does not parse
    (the worker would log the error and retry the same file). */
module JobQueue {
  import opened Text
  import opened Wrappers
  import opened Branding

  predicate IsJobFile(name: string) {
    EndsWith(name, ".json")
  }

  /** The job files of a listing, in listing order. */
  function JobFiles(listing: seq<string>): (jobs: seq<string>)
    ensures forall x :: x in jobs <==> x in listing && IsJobFile(x)
  {
    if listing == [] then []
    else
      var rest := JobFiles(listing[1..]);
      assert forall x :: x in listing <==> x == listing[0] || x in listing[1..];
      if IsJobFile(listing[0]) then [listing[0]] + rest else rest
  }

  /** The job files present in the queue directory. */
  function JobSet(queue: set<string>): (jobs: set<string>)
    ensures jobs <= queue
    ensures forall x :: x in jobs <==> x in queue && IsJobFile(x)
  {
    set x | x in queue && IsJobFile(x)
  }

  /** `a` is below every name of `names`, as `b` is and `a <= b`. */
  lemma BelowAll(a: string, b: string, names: seq<string>)
    requires LexLessEq(a, b)
    requires forall x :: x in names ==> LexLessEq(b, x)
    ensures forall x :: x in names ==> LexLessEq(a, x)
  {
    forall x | x in names
      ensures LexLessEq(a, x)
    {
      LexTransitive(a, b, x);
    }
  }

  /** `sorted(jobs)[0]`: the smallest job name in code-point order. */
  function SmallestJob(jobs: seq<string>): (r: Option<string>)
    ensures r.None? <==> jobs == []
    ensures r.Some? ==> r.value in jobs && forall x :: x in jobs ==> LexLessEq(r.value, x)
  {
    if jobs == [] then None
    else
      var head := jobs[0];
      assert forall x :: x in jobs ==> x == head || x in jobs[1..];
      LexTotal(head, head);
      match SmallestJob(jobs[1..])
      case None => Some(head)
      case Some(m) =>
        if LexLessEq(head, m) then
          BelowAll(head, m, jobs[1..]);
          Some(head)
        else
          LexTotal(head, m);
          Some(m)
  }

  /** The smallest job name is the one any ordering of the directory
      yields: two names below each other are equal. */
  lemma SmallestIsUnique(jobs: set<string>, a: string, b: string)
    requires a in jobs && b in jobs
    requires forall x :: x in jobs ==> LexLessEq(a, x)
    requires forall x :: x in jobs ==> LexLessEq(b, x)
    ensures a == b
  {
    LexAntisymmetric(a, b);
  }

  /** `os.listdir`: every name of the directory once, in no particular
      order. */
  method ListDir(dir: set<string>) returns (listing: seq<string>)
    ensures forall x :: x in listing <==> x in dir
  {
    listing := [];
    var rest := dir;
    while rest != {}
      invariant rest <= dir
      invariant forall x :: x in listing <==> x in dir && x !in rest
      decreases |rest|
    {
      var x :| x in rest;
      listing := listing + [x];
      rest := rest - {x};
    }
  }

  /** One look at the queue: list it, keep the job files, sort them and
      take the first. */
  method PickNext(queue: set<string>) returns (next: Option<string>)
    ensures next.None? <==> JobSet(queue) == {}
    ensures next.Some? ==> next.value in JobSet(queue) && forall x :: x in JobSet(queue) ==> LexLessEq(next.value, x)
  {
    var listing := ListDir(queue);
    var jobs := JobFiles(listing);
    next := SmallestJob(jobs);
    if next.None? {
      assert forall x :: x in JobSet(queue) ==> x in jobs;
    } else {
      forall x | x in JobSet(queue)
        ensures LexLessEq(next.value, x)
      {
        assert x in jobs;
      }
    }
  }

  /** The files after the last of `outcomes`, or `fs0` when there is none. */
  function LastFs(fs0: set<string>, outcomes: seq<Outcome>): set<string> {
    if outcomes == [] then fs0 else outcomes[|outcomes| - 1].fs
  }

  /** What `process_video` does to one job: its outcome on the files it
      finds, for a time stamp and the behaviour of its ffmpeg steps. */
  type Processor = (Job, set<string>, nat, Tools) -> Outcome

  function ProcessIn(env: Env): Processor {
    (job: Job, fs: set<string>, ts: nat, tools: Tools) => Process(env, job, fs, ts, tools)
  }

  /** `outcomes` are what processing the jobs `names` one after another
      with `process` gives, each on the files the one before left,
      starting from `fs0`; the i-th job gets the time stamp `clock(i)`. */
  ghost predicate Chain(parsed: map<string, Job>, fs0: set<string>, clock: nat -> nat,
                        toolsFor: string -> Tools, process: Processor,
                        names: seq<string>, outcomes: seq<Outcome>)
  {
    && |outcomes| == |names|
    && (forall i :: 0 <= i < |names| ==> names[i] in parsed)
    && forall i {:trigger outcomes[i]} :: 0 <= i < |names| ==>
         outcomes[i] == process(parsed[names[i]], LastFs(fs0, outcomes[..i]), clock(i), toolsFor(names[i]))
  }

  /** Processing one more job on the files the chain left extends it. */
  lemma ChainSnoc(parsed: map<string, Job>, fs0: set<string>, clock: nat -> nat,
                  toolsFor: string -> Tools, process: Processor, names: seq<string>,
                  outcomes: seq<Outcome>, name: string, o: Outcome)
    requires Chain(parsed, fs0, clock, toolsFor, process, names, outcomes)
    requires name in parsed
    requires o == process(parsed[name], LastFs(fs0, outcomes), clock(|names|), toolsFor(name))
    ensures Chain(parsed, fs0, clock, toolsFor, process, names + [name], outcomes + [o])
  {
    var names', outcomes' := names + [name], outcomes + [o];
    forall i | 0 <= i < |names'|
      ensures outcomes'[i] == process(parsed[names'[i]], LastFs(fs0, outcomes'[..i]), clock(i), toolsFor(names'[i]))
    {
      if i < |names| {
        assert outcomes'[..i] == outcomes[..i];
        assert outcomes'[i] == outcomes[i];
      } else {
        assert outcomes'[..i] == outcomes;
      }
    }
  }

  /** One iteration's `process_video(job_data)` call, on the files the
      previous iterations left. */
  method RunJob(env: Env, parsed: map<string, Job>, fs0: set<string>, clock: nat -> nat,
                toolsFor: string -> Tools, served: seq<string>, outcomes: seq<Outcome>,
                fs: set<string>, name: string)
    returns (outcomes': seq<Outcome>, fs': set<string>)
    requires Chain(parsed, fs0, clock, toolsFor, ProcessIn(env), served, outcomes) && fs == LastFs(fs0, outcomes)
    requires name in parsed
    ensures Chain(parsed, fs0, clock, toolsFor, ProcessIn(env), served + [name], outcomes')
    ensures fs' == LastFs(fs0, outcomes')
  {
    var ok, after, record := ProcessVideo(env, parsed[name], fs, clock(|served|), toolsFor(name));
    outcomes' := outcomes + [Outcome(ok, after, record)];
    fs' := after;
    ChainSnoc(parsed, fs0, clock, toolsFor, ProcessIn(env), served, outcomes, name, Outcome(ok, after, record));
  }

  /** The jobs served so far are in strictly increasing order, each
      before every job file still queued. */
  predicate ServedInOrder(served: seq<string>, queue: set<string>) {
    && (forall i, j :: 0 <= i < j < |served| ==> LexLessEq(served[i], served[j]) && served[i] != served[j])
    && (forall i, x :: 0 <= i < |served| && x in JobSet(queue) ==> LexLessEq(served[i], x))
  }

  /** Serving the smallest queued job file next keeps the order. */
  lemma ServeSmallest(served: seq<string>, queue: set<string>, name: string)
    requires ServedInOrder(served, queue)
    requires name in JobSet(queue) && forall x :: x in JobSet(queue) ==> LexLessEq(name, x)
    requires forall i :: 0 <= i < |served| ==> served[i] !in queue
    ensures ServedInOrder(served + [name], queue - {name})
  {
    assert JobSet(queue - {name}) <= JobSet(queue);
  }

  /** Deleting the served job's file keeps the queue's bookkeeping: the
      served names are queued job files, and what is left is what was
      queued and not served, one job file fewer. */
  lemma {:induction false} DequeueServed(queue0: set<string>, served: seq<string>, queue: set<string>, name: string)
    requires forall i :: 0 <= i < |served| ==> served[i] in JobSet(queue0)
    requires ServedInOrder(served, queue)
    requires forall x :: x in queue <==> x in queue0 && x !in served
    requires name in JobSet(queue) && forall x :: x in JobSet(queue) ==> LexLessEq(name, x)
    ensures forall i :: 0 <= i < |served + [name]| ==> (served + [name])[i] in JobSet(queue0)
    ensures ServedInOrder(served + [name], queue - {name})
    ensures forall x :: x in queue - {name} <==> x in queue0 && x !in served + [name]
    ensures |JobSet(queue - {name})| < |JobSet(queue)|
  {
    ServeSmallest(served, queue, name);
    assert JobSet(queue - {name}) == JobSet(queue) - {name};
  }

  /** One iteration past the pick: process the job, then delete its file. */
  method ServeJob(env: Env, queue0: set<string>, parsed: map<string, Job>, fs0: set<string>,
                  clock: nat -> nat, toolsFor: string -> Tools,
                  served: seq<string>, outcomes: seq<Outcome>, queue: set<string>, fs: set<string>,
                  name: string)
    returns (served': seq<string>, outcomes': seq<Outcome>, queue': set<string>, fs': set<string>)
    requires forall i :: 0 <= i < |served| ==> served[i] in JobSet(queue0)
    requires ServedInOrder(served, queue)
    requires Chain(parsed, fs0, clock, toolsFor, ProcessIn(env), served, outcomes) && fs == LastFs(fs0, outcomes)
    requires forall x :: x in queue <==> x in queue0 && x !in served
    requires name in parsed && name in JobSet(queue)
    requires forall x :: x in JobSet(queue) ==> LexLessEq(name, x)
    ensures served' == served + [name] && queue' == queue - {name}
    ensures forall i :: 0 <= i < |served'| ==> served'[i] in JobSet(queue0)
    ensures ServedInOrder(served', queue')
    ensures Chain(parsed, fs0, clock, toolsFor, ProcessIn(env), served', outcomes') && fs' == LastFs(fs0, outcomes')
    ensures forall x :: x in queue' <==> x in queue0 && x !in served'
    ensures |JobSet(queue')| < |JobSet(queue)|
  {
    outcomes', fs' := RunJob(env, parsed, fs0, clock, toolsFor, served, outcomes, fs, name);
    DequeueServed(queue0, served, queue, name);
    served' := served + [name];
    queue' := queue - {name};
  }

  /** The main loop over a queue that receives no new files meanwhile. */
  method ServeQueue(env: Env, queue0: set<string>, parsed: map<string, Job>, fs0: set<string>,
                    clock: nat -> nat, toolsFor: string -> Tools)
    returns (served: seq<string>, outcomes: seq<Outcome>, queue: set<string>, fs: set<string>,
             stuck: Option<string>)
    // each iteration takes the smallest job file still queued: the jobs are
    // served in strictly increasing order, each before every job left
    ensures forall i :: 0 <= i < |served| ==> served[i] in JobSet(queue0)
    ensures ServedInOrder(served, queue)
    // each job is processed on the files the previous one left
    ensures Chain(parsed, fs0, clock, toolsFor, ProcessIn(env), served, outcomes)
    ensures fs == LastFs(fs0, outcomes)
    // a job file is removed once processed, whether the job succeeded or not
    ensures forall x :: x in queue <==> x in queue0 && x !in served
    // the loop ends with no job file left, or at one that does not parse
    ensures stuck.None? ==> JobSet(queue) == {}
    // so, unless a job file does not parse, every job file is served once,
    // a failed job included
    ensures stuck.None? ==> forall x :: x in JobSet(queue0) ==> x in served
    ensures stuck.Some? ==>
      && stuck.value in JobSet(queue) && stuck.value !in parsed
      && forall x :: x in JobSet(queue) ==> LexLessEq(stuck.value, x)
  {
    served, outcomes, queue, fs, stuck := [], [], queue0, fs0, None;
    while true
      invariant forall i :: 0 <= i < |served| ==> served[i] in JobSet(queue0)
      invariant ServedInOrder(served, queue)
      invariant Chain(parsed, fs0, clock, toolsFor, ProcessIn(env), served, outcomes)
      invariant fs == LastFs(fs0, outcomes)
      invariant forall x :: x in queue <==> x in queue0 && x !in served
      invariant stuck.None?
      decreases |JobSet(queue)|
    {
      var next := PickNext(queue);
      if next.None? {
        break;
      }
      var name := next.value;
      if name !in parsed {
        stuck := Some(name);
        break;
      }
      served, outcomes, queue, fs := ServeJob(env, queue0, parsed, fs0, clock, toolsFor, served, outcomes, queue, fs, name);
    }
  }
}
