/** What each opcode does in an executing branch, as rewriting laws the program proofs run on. */
module Laws {
  import opened Bits
  import opened Bytes
  import opened Hand
  import opened Machine

  lemma PushLaws(tx: Spend)
    ensures forall v: int, s, alt, br {:trigger Step(NUM(v), tx, Running(s, alt, br))} | Executing(br) ::
      Step(NUM(v), tx, Running(s, alt, br)) == Running(Push(Num(v), s), alt, br)
    ensures forall b, s, alt, br {:trigger Step(DATA(b), tx, Running(s, alt, br))} | Executing(br) ::
      Step(DATA(b), tx, Running(s, alt, br)) == Running(Push(Data(b), s), alt, br)
    ensures forall op {:trigger Step(op, tx, Failed)} ::
      Step(op, tx, Failed) == Failed
    ensures forall s, alt, br {:trigger Step(DEPTH, tx, Running(s, alt, br))} | Executing(br) ::
      Step(DEPTH, tx, Running(s, alt, br)) == Running(Push(Num(Depth(s)), s), alt, br)
  {
  }

  lemma StackLaws(tx: Spend)
    ensures forall x, s, alt, br {:trigger Step(DUP, tx, Running(Push(x, s), alt, br))} | Executing(br) ::
      Step(DUP, tx, Running(Push(x, s), alt, br)) == Running(Push(x, Push(x, s)), alt, br)
    ensures forall x, y, s, alt, br {:trigger Step(DUP2, tx, Running(Push(x, Push(y, s)), alt, br))} | Executing(br) ::
      Step(DUP2, tx, Running(Push(x, Push(y, s)), alt, br)) == Running(Push(x, Push(y, Push(x, Push(y, s)))), alt, br)
    ensures forall x, y, s, alt, br {:trigger Step(OVER, tx, Running(Push(x, Push(y, s)), alt, br))} | Executing(br) ::
      Step(OVER, tx, Running(Push(x, Push(y, s)), alt, br)) == Running(Push(y, Push(x, Push(y, s))), alt, br)
    ensures forall x, y, s, alt, br {:trigger Step(SWAP, tx, Running(Push(x, Push(y, s)), alt, br))} | Executing(br) ::
      Step(SWAP, tx, Running(Push(x, Push(y, s)), alt, br)) == Running(Push(y, Push(x, s)), alt, br)
    ensures forall x, y, z, s, alt, br {:trigger Step(ROT, tx, Running(Push(x, Push(y, Push(z, s))), alt, br))}
      | Executing(br) ::
      Step(ROT, tx, Running(Push(x, Push(y, Push(z, s))), alt, br)) == Running(Push(z, Push(x, Push(y, s))), alt, br)
    ensures forall x, s, alt, br {:trigger Step(DROP, tx, Running(Push(x, s), alt, br))} | Executing(br) ::
      Step(DROP, tx, Running(Push(x, s), alt, br)) == Running(s, alt, br)
    ensures forall x, y, s, alt, br {:trigger Step(DROP2, tx, Running(Push(x, Push(y, s)), alt, br))} | Executing(br) ::
      Step(DROP2, tx, Running(Push(x, Push(y, s)), alt, br)) == Running(s, alt, br)
    ensures forall x, s, alt, br {:trigger Step(TOALT, tx, Running(Push(x, s), alt, br))} | Executing(br) ::
      Step(TOALT, tx, Running(Push(x, s), alt, br)) == Running(s, Push(x, alt), br)
    ensures forall x, s, alt, br {:trigger Step(FROMALT, tx, Running(s, Push(x, alt), br))} | Executing(br) ::
      Step(FROMALT, tx, Running(s, Push(x, alt), br)) == Running(Push(x, s), alt, br)
  {
  }

  lemma PickLaws(tx: Spend)
    ensures forall d: nat, s, alt, br {:trigger Step(PICK, tx, Running(Push(Num(d), s), alt, br))}
      | Executing(br) && Drop(d, s).Push? ::
      Step(PICK, tx, Running(Push(Num(d), s), alt, br)) == Running(Push(Drop(d, s).top, s), alt, br)
    ensures forall d: nat, s, alt, br {:trigger Step(ROLL, tx, Running(Push(Num(d), s), alt, br))}
      | Executing(br) && Drop(d, s).Push? ::
      Step(ROLL, tx, Running(Push(Num(d), s), alt, br)) == Running(Push(Drop(d, s).top, Remove(d, s)), alt, br)
  {
  }

  lemma StringLaws(tx: Spend)
    ensures forall b, s, alt, br {:trigger Step(SIZE, tx, Running(Push(Data(b), s), alt, br))} | Executing(br) ::
      Step(SIZE, tx, Running(Push(Data(b), s), alt, br)) == Running(Push(Num(|b|), Push(Data(b), s)), alt, br)
    ensures forall b, o: nat, w: nat, s, alt, br
      {:trigger Step(SUBSTR, tx, Running(Push(Num(w), Push(Num(o), Push(Data(b), s))), alt, br))}
      | Executing(br) && o + w <= |b| ::
      Step(SUBSTR, tx, Running(Push(Num(w), Push(Num(o), Push(Data(b), s))), alt, br))
        == Running(Push(Data(b[o..o + w]), s), alt, br)
    ensures forall a, b, s, alt, br {:trigger Step(CAT, tx, Running(Push(Data(b), Push(Data(a), s)), alt, br))}
      | Executing(br) ::
      Step(CAT, tx, Running(Push(Data(b), Push(Data(a), s)), alt, br)) == Running(Push(Data(a + b), s), alt, br)
    ensures forall b, s, alt, br {:trigger Step(BIN2NUM, tx, Running(Push(Data(b), s), alt, br))} | Executing(br) ::
      Step(BIN2NUM, tx, Running(Push(Data(b), s), alt, br)) == Running(Push(Num(ScriptNumber(b)), s), alt, br)
  {
  }

  lemma CheckLaws(tx: Spend)
    ensures forall n: int, s, alt, br {:trigger Step(VERIFY, tx, Running(Push(Num(n), s), alt, br))} | Executing(br) ::
      Step(VERIFY, tx, Running(Push(Num(n), s), alt, br)) == if n != 0 then Running(s, alt, br) else Failed
    ensures forall n: int, s, alt, br {:trigger Step(NOT, tx, Running(Push(Num(n), s), alt, br))} | Executing(br) ::
      Step(NOT, tx, Running(Push(Num(n), s), alt, br)) == Running(Push(Flag(n == 0), s), alt, br)
    ensures forall m: int, n: int, s, alt, br
      {:trigger Step(NUMEQUALVERIFY, tx, Running(Push(Num(n), Push(Num(m), s)), alt, br))}
      | Executing(br) ::
      Step(NUMEQUALVERIFY, tx, Running(Push(Num(n), Push(Num(m), s)), alt, br)) == if m
        == n then Running(s, alt, br) else Failed
    ensures forall x, y, s, alt, br {:trigger Step(EQUALVERIFY, tx, Running(Push(x, Push(y, s)), alt, br))}
      | Executing(br) ::
      Step(EQUALVERIFY, tx, Running(Push(x, Push(y, s)), alt, br)) == if x == y then Running(s, alt, br) else Failed
    ensures forall n: int, s, alt, br {:trigger Step(CHECKTIMEVERIFY, tx, Running(Push(Num(n), s), alt, br))}
      | Executing(br) ::
      Step(CHECKTIMEVERIFY, tx, Running(Push(Num(n), s), alt, br))
        == if n <= tx.time then Running(s, alt, br) else Failed
    ensures forall q: Player, slot: nat, card: nat, b, s, alt, br
      {:trigger Step(REVEALPROOF(q, slot, card), tx, Running(Push(Data(b), s), alt, br))}
      | Executing(br) ::
      Step(REVEALPROOF(q, slot, card), tx, Running(Push(Data(b), s), alt, br))
        == if ProofHolds(tx, q, slot, card, b) then Running(s, alt, br) else Failed
  {
  }

  lemma SettlementLaws(tx: Spend)
    ensures forall i: nat, first: nat, second: nat, b, s, alt, br
      {:trigger Step(DEALTCARD(i, first, second), tx, Running(Push(Data(b), s), alt, br))} | Executing(br) ::
      Step(DEALTCARD(i, first, second), tx, Running(Push(Data(b), s), alt, br))
        == if CardHolds(tx, i, first, second, b) then Running(Push(Data(b), s), alt, br) else Failed
    ensures forall h, l, r, m: int, s, alt, br
      {:trigger Step(RANKPROOF, tx, Running(Push(Data(h), Push(Data(l), Push(Data(r), Push(Num(m), s)))), alt, br))}
      | Executing(br) ::
      Step(RANKPROOF, tx, Running(Push(Data(h), Push(Data(l), Push(Data(r), Push(Num(m), s)))), alt, br))
        == if RankHolds(tx, m, r, l, h) then Running(Push(Num(LittleEndian(r)), s), alt, br) else Failed
  {
  }

  lemma ArithmeticLaws(tx: Spend)
    ensures forall m: int, n: int, s, alt, br {:trigger Step(ADD, tx, Running(Push(Num(n), Push(Num(m), s)), alt, br))}
      | Executing(br) ::
      Step(ADD, tx, Running(Push(Num(n), Push(Num(m), s)), alt, br)) == Running(Push(Num(m + n), s), alt, br)
    ensures forall m: int, n: int, s, alt, br {:trigger Step(SUB, tx, Running(Push(Num(n), Push(Num(m), s)), alt, br))}
      | Executing(br) ::
      Step(SUB, tx, Running(Push(Num(n), Push(Num(m), s)), alt, br)) == Running(Push(Num(m - n), s), alt, br)
    ensures forall m: int, n: int, s, alt, br {:trigger Step(MUL, tx, Running(Push(Num(n), Push(Num(m), s)), alt, br))}
      | Executing(br) ::
      Step(MUL, tx, Running(Push(Num(n), Push(Num(m), s)), alt, br)) == Running(Push(Num(m * n), s), alt, br)
    ensures forall m: int, n: int, s, alt, br
      {:trigger Step(BOOLOR, tx, Running(Push(Num(n), Push(Num(m), s)), alt, br))}
      | Executing(br) ::
      Step(BOOLOR, tx, Running(Push(Num(n), Push(Num(m), s)), alt, br))
        == Running(Push(Flag(m != 0 || n != 0), s), alt, br)
  {
  }

  lemma EqualityLaws(tx: Spend)
    ensures forall m: int, n: int, s, alt, br
      {:trigger Step(NUMEQUAL, tx, Running(Push(Num(n), Push(Num(m), s)), alt, br))}
      | Executing(br) ::
      Step(NUMEQUAL, tx, Running(Push(Num(n), Push(Num(m), s)), alt, br)) == Running(Push(Flag(m == n), s), alt, br)
    ensures forall m: int, n: int, s, alt, br
      {:trigger Step(NUMNOTEQUAL, tx, Running(Push(Num(n), Push(Num(m), s)), alt, br))}
      | Executing(br) ::
      Step(NUMNOTEQUAL, tx, Running(Push(Num(n), Push(Num(m), s)), alt, br)) == Running(Push(Flag(m != n), s), alt, br)
  {
  }

  lemma ComparisonLaws(tx: Spend)
    ensures forall m: int, n: int, s, alt, br
      {:trigger Step(LESSTHAN, tx, Running(Push(Num(n), Push(Num(m), s)), alt, br))}
      | Executing(br) ::
      Step(LESSTHAN, tx, Running(Push(Num(n), Push(Num(m), s)), alt, br)) == Running(Push(Flag(m < n), s), alt, br)
    ensures forall m: int, n: int, s, alt, br
      {:trigger Step(LESSTHANOREQUAL, tx, Running(Push(Num(n), Push(Num(m), s)), alt, br))}
      | Executing(br) ::
      Step(LESSTHANOREQUAL, tx, Running(Push(Num(n), Push(Num(m), s)), alt, br))
        == Running(Push(Flag(m <= n), s), alt, br)
    ensures forall m: int, n: int, s, alt, br
      {:trigger Step(GREATERTHAN, tx, Running(Push(Num(n), Push(Num(m), s)), alt, br))}
      | Executing(br) ::
      Step(GREATERTHAN, tx, Running(Push(Num(n), Push(Num(m), s)), alt, br)) == Running(Push(Flag(m > n), s), alt, br)
    ensures forall m: int, n: int, s, alt, br
      {:trigger Step(GREATERTHANOREQUAL, tx, Running(Push(Num(n), Push(Num(m), s)), alt, br))}
      | Executing(br) ::
      Step(GREATERTHANOREQUAL, tx, Running(Push(Num(n), Push(Num(m), s)), alt, br))
        == Running(Push(Flag(m >= n), s), alt, br)
  {
  }

  lemma DivisionLaws(tx: Spend)
    ensures forall m: nat, n: nat, s, alt, br {:trigger Step(DIV, tx, Running(Push(Num(n), Push(Num(m), s)), alt, br))}
      | Executing(br) && n > 0 ::
      Step(DIV, tx, Running(Push(Num(n), Push(Num(m), s)), alt, br)) == Running(Push(Num(m / n), s), alt, br)
    ensures forall m: nat, n: nat, s, alt, br {:trigger Step(MOD, tx, Running(Push(Num(n), Push(Num(m), s)), alt, br))}
      | Executing(br) && n > 0 ::
      Step(MOD, tx, Running(Push(Num(n), Push(Num(m), s)), alt, br)) == Running(Push(Num(m % n), s), alt, br)
  {
  }

  lemma ShiftLaws(tx: Spend)
    ensures forall m: nat, n: nat, s, alt, br
      {:trigger Step(LSHIFT, tx, Running(Push(Num(n), Push(Num(m), s)), alt, br))}
      | Executing(br) ::
      Step(LSHIFT, tx, Running(Push(Num(n), Push(Num(m), s)), alt, br)) == Running(Push(Num(m * Pow2(n)), s), alt, br)
    ensures forall m: nat, n: nat, s, alt, br
      {:trigger Step(RSHIFT, tx, Running(Push(Num(n), Push(Num(m), s)), alt, br))}
      | Executing(br) ::
      Step(RSHIFT, tx, Running(Push(Num(n), Push(Num(m), s)), alt, br)) == Running(Push(Num(m / Pow2(n)), s), alt, br)
  {
  }

  lemma BranchLaws(tx: Spend)
    ensures forall n: int, s, alt, br {:trigger Step(IF, tx, Running(Push(Num(n), s), alt, br))} | Executing(br) ::
      Step(IF, tx, Running(Push(Num(n), s), alt, br)) == Running(s, alt, Nested(if n != 0 then Taken else NotTaken, br))
    ensures forall s, alt, br {:trigger Step(ELSE, tx, Running(s, alt, Nested(Taken, br)))} ::
      Step(ELSE, tx, Running(s, alt, Nested(Taken, br))) == Running(s, alt, Nested(NotTaken, br))
    ensures forall s, alt, br {:trigger Step(ELSE, tx, Running(s, alt, Nested(NotTaken, br)))} ::
      Step(ELSE, tx, Running(s, alt, Nested(NotTaken, br))) == Running(s, alt, Nested(Taken, br))
    ensures forall s, alt, br {:trigger Step(ELSE, tx, Running(s, alt, Nested(Skipped, br)))} ::
      Step(ELSE, tx, Running(s, alt, Nested(Skipped, br))) == Running(s, alt, Nested(Skipped, br))
    ensures forall op: Op, s, alt, br {:trigger Step(op, tx, Running(s, alt, br))}
      | !Executing(br) && !op.IF? && !op.ELSE? && !op.ENDIF? ::
      Step(op, tx, Running(s, alt, br)) == Running(s, alt, br)
    ensures forall s, alt, br {:trigger Step(IF, tx, Running(s, alt, br))} | !Executing(br) ::
      Step(IF, tx, Running(s, alt, br)) == Running(s, alt, Nested(Skipped, br))
    ensures forall b, s, alt, br {:trigger Step(ENDIF, tx, Running(s, alt, Nested(b, br)))} ::
      Step(ENDIF, tx, Running(s, alt, Nested(b, br))) == Running(s, alt, br)
  {
  }

  lemma InspectionLaws(tx: Spend)
    ensures forall s, alt, br {:trigger Step(CURRENTINPUT, tx, Running(s, alt, br))} | Executing(br) ::
      Step(CURRENTINPUT, tx, Running(s, alt, br)) == Running(Push(Num(tx.current), s), alt, br)
    ensures forall s, alt, br {:trigger Step(NUMINPUTS, tx, Running(s, alt, br))} | Executing(br) ::
      Step(NUMINPUTS, tx, Running(s, alt, br)) == Running(Push(Num(|tx.inputs|), s), alt, br)
    ensures forall i: int, s, alt, br {:trigger Step(INPUTVALUE, tx, Running(Push(Num(i), s), alt, br))}
      | Executing(br) ::
      Step(INPUTVALUE, tx, Running(Push(Num(i), s), alt, br))
        == if 0 <= i < |tx.inputs| then Running(Push(Num(tx.inputs[i].value), s), alt, br) else Failed
    ensures forall i: int, s, alt, br {:trigger Step(OUTPUTVALUE, tx, Running(Push(Num(i), s), alt, br))}
      | Executing(br) ::
      Step(OUTPUTVALUE, tx, Running(Push(Num(i), s), alt, br))
        == if 0 <= i < |tx.outputs| then Running(Push(Num(tx.outputs[i].value), s), alt, br) else Failed
  {
  }

  lemma ScriptLaws(tx: Spend)
    ensures forall i: int, s, alt, br {:trigger Step(INPUTSCRIPT, tx, Running(Push(Num(i), s), alt, br))}
      | Executing(br) ::
      Step(INPUTSCRIPT, tx, Running(Push(Num(i), s), alt, br))
        == if 0 <= i < |tx.inputs| then Running(ScriptItems(tx.inputs[i].script, s), alt, br) else Failed
    ensures forall i: int, s, alt, br {:trigger Step(OUTPUTSCRIPT, tx, Running(Push(Num(i), s), alt, br))}
      | Executing(br) ::
      Step(OUTPUTSCRIPT, tx, Running(Push(Num(i), s), alt, br))
        == if 0 <= i < |tx.outputs| then Running(ScriptItems(tx.outputs[i].script, s), alt, br) else Failed
    ensures forall i: int, k: int, s, alt, br
      {:trigger Step(INPUTPACKET, tx, Running(Push(Num(i), Push(Num(k), s)), alt, br))}
      | Executing(br) ::
      Step(INPUTPACKET, tx, Running(Push(Num(i), Push(Num(k), s)), alt, br))
        == if 0 <= i < |tx.inputs| then Running(PacketItems(tx.inputs[i].packets, k, s), alt, br) else Failed
    ensures forall k: int, s, alt, br {:trigger Step(PACKET, tx, Running(Push(Num(k), s), alt, br))} | Executing(br) ::
      Step(PACKET, tx, Running(Push(Num(k), s), alt, br)) == Running(PacketItems(tx.packets, k, s), alt, br)
  {
  }

  // ---------- A fixed number of opcodes in a row ----------

  lemma Run1(a: Op, tx: Spend, vm: Vm)
    ensures Run([a], tx, vm) == Step(a, tx, vm)
  {
    hide Step, Exec;
    var code := [a];
    assert After(1, code, tx, vm) == Step(code[0], tx, After(0, code, tx, vm));
  }

  lemma Run2(a: Op, b: Op, tx: Spend, vm: Vm)
    ensures Run([a, b], tx, vm)
      == Step(b, tx, Step(a, tx, vm))
  {
    hide Step, Exec;
    var code := [a, b];
    assert After(2, code, tx, vm) == Step(code[1], tx, After(1, code, tx, vm));
  }

  lemma Run3(a: Op, b: Op, c: Op, tx: Spend, vm: Vm)
    ensures Run([a, b, c], tx, vm)
      == Step(c, tx, Step(b, tx, Step(a, tx, vm)))
  {
    hide Step, Exec;
    var code := [a, b, c];
    assert After(3, code, tx, vm) == Step(code[2], tx, After(2, code, tx, vm));
  }

  lemma Run4(a: Op, b: Op, c: Op, d: Op, tx: Spend, vm: Vm)
    ensures Run([a, b, c, d], tx, vm)
      == Step(d, tx, Step(c, tx, Step(b, tx, Step(a, tx, vm))))
  {
    hide Step, Exec;
    var code := [a, b, c, d];
    assert After(4, code, tx, vm) == Step(code[3], tx, After(3, code, tx, vm));
  }

  lemma Run5(a: Op, b: Op, c: Op, d: Op, e: Op, tx: Spend, vm: Vm)
    ensures Run([a, b, c, d, e], tx, vm)
      == Step(e, tx, Step(d, tx, Step(c, tx, Step(b, tx, Step(a, tx, vm)))))
  {
    hide Step, Exec;
    var code := [a, b, c, d, e];
    assert After(5, code, tx, vm) == Step(code[4], tx, After(4, code, tx, vm));
  }

  lemma Run6(a: Op, b: Op, c: Op, d: Op, e: Op, f: Op, tx: Spend, vm: Vm)
    ensures Run([a, b, c, d, e, f], tx, vm)
      == Step(f, tx, Step(e, tx, Step(d, tx, Step(c, tx, Step(b, tx, Step(a, tx, vm))))))
  {
    hide Step, Exec;
    var code := [a, b, c, d, e, f];
    assert After(6, code, tx, vm) == Step(code[5], tx, After(5, code, tx, vm));
  }

  lemma Run7(a: Op, b: Op, c: Op, d: Op, e: Op, f: Op, g: Op, tx: Spend, vm: Vm)
    ensures Run([a, b, c, d, e, f, g], tx, vm)
      == Step(g, tx, Step(f, tx, Step(e, tx, Step(d, tx, Step(c, tx, Step(b, tx, Step(a, tx, vm)))))))
  {
    hide Step, Exec;
    var code := [a, b, c, d, e, f, g];
    assert After(7, code, tx, vm) == Step(code[6], tx, After(6, code, tx, vm));
  }

  lemma Run8(a: Op, b: Op, c: Op, d: Op, e: Op, f: Op, g: Op, h: Op, tx: Spend, vm: Vm)
    ensures Run([a, b, c, d, e, f, g, h], tx, vm)
      == Step(h, tx, Step(g, tx, Step(f, tx, Step(e, tx, Step(d, tx, Step(c, tx, Step(b, tx, Step(a, tx, vm))))))))
  {
    hide Step, Exec;
    var code := [a, b, c, d, e, f, g, h];
    assert After(8, code, tx, vm) == Step(code[7], tx, After(7, code, tx, vm));
  }

  lemma Run9(a: Op, b: Op, c: Op, d: Op, e: Op, f: Op, g: Op, h: Op, i: Op, tx: Spend, vm: Vm)
    ensures var middle := Step(d, tx, Step(c, tx, Step(b, tx, Step(a, tx, vm))));
      Run([a, b, c, d, e, f, g, h, i], tx, vm)
        == Step(i, tx, Step(h, tx, Step(g, tx, Step(f, tx, Step(e, tx, middle)))))
  {
    hide Step, Exec;
    var code := [a, b, c, d, e, f, g, h, i];
    assert After(9, code, tx, vm) == Step(code[8], tx, After(8, code, tx, vm));
  }

  lemma Run10(a: Op, b: Op, c: Op, d: Op, e: Op, f: Op, g: Op, h: Op, i: Op, j: Op, tx: Spend, vm: Vm)
    ensures var middle := Step(e, tx, Step(d, tx, Step(c, tx, Step(b, tx, Step(a, tx, vm)))));
      Run([a, b, c, d, e, f, g, h, i, j], tx, vm)
        == Step(j, tx, Step(i, tx, Step(h, tx, Step(g, tx, Step(f, tx, middle)))))
  {
    hide Step, Exec;
    var code := [a, b, c, d, e, f, g, h, i, j];
    assert After(10, code, tx, vm) == Step(code[9], tx, After(9, code, tx, vm));
  }
}
