/** Small types shared by the modules of this project. */
module Types {

  datatype Option<+T> = None | Some(value: T)

  datatype Result<+T> = Ok(value: T) | Err(error: string)

  /** Lifecycle state of an agent session. */
  datatype SessionState = Active | Completed | Failed | Compensating | Compensated | AwaitingApproval | Halted {
    predicate IsTerminal() {
      Completed? || Compensated? || Halted?
    }

    /** The guarded update that marks a session compensated: it skips a session that awaits approval. */
    function SetCompensated(): SessionState {
      if Active? || Failed? || Compensating? then SessionState.Compensated else this
    }
  }

  /** Lifecycle state of one undo stack entry. */
  datatype StepState = Pending | Running | Compensated | Failed | Skipped

  ghost predicate Distinct<T>(s: seq<T>) {
    forall i, j :: 0 <= i < j < |s| ==> s[i] != s[j]
  }

  lemma ConcatAssociates<T>(a: seq<T>, b: seq<T>, c: seq<T>)
    ensures (a + b) + c == a + (b + c)
  {
  }
}
