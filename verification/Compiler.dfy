/** The compiled form of a program: every body through the frame tree, inlining and resolution. */
module Compiler {
  import opened Values
  import opened Syntax
  import opened ByteCode
  import opened Frames
  import opened SecondPass
  import opened ThirdPass
  import opened Machine
  import opened Evaluator

  function CompileFn(d: FnDef): Compiled {
    Compiled(d.params, Resolve(Inline(FunctionItems(d))))
  }

  function CompileWorld(w: World): Program {
    Program(map id | id in w.fns :: CompileFn(w.fns[id]), w.builtins, w.builtin, w.floats)
  }
}
