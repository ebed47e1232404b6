/** Tokens and syntax trees of the hook script language. */
module Script {
  import opened Options

  datatype BinOp =
    | Or | And | Eq | Neq | StrictEq | StrictNeq | Lt | Le | Gt | Ge | Add | Sub | Mul | Div | Rem

  datatype UnOp = Not | Negate

  /** Tokens as the lexer hands them over; the end of the list stands for the end-of-file token too. */
  datatype Token =
    | TEof | TIdent(text: string) | TNumber(num: real) | TString(text: string)
    | TLParen | TRParen | TLBrace | TRBrace | TLBracket | TRBracket
    | TComma | TSemi | TDot | TColon | TAssign | TBang | TOp(op: BinOp)
    | TFunction | TReturn | TIf | TElse | TFor | TOf | TVar | TLet | TConst
    | TTrue | TFalse | TNull | TUndefined | TDelete | TNew

  datatype Expr =
    | Num(n: real)
    | Str(s: string)
    | Bool(b: bool)
    | Null
    | Var(name: string)
    | Object(fields: seq<(string, Expr)>)
    | Array(items: seq<Expr>)
    | Member(obj: Expr, prop: Expr)
    | Call(fn: Expr, args: seq<Expr>)
    | Binary(op: BinOp, l: Expr, r: Expr)
    | Unary(uop: UnOp, x: Expr)
    | Assign(target: Expr, val: Expr)
    | Function(params: seq<string>, body: seq<Stmt>)

  datatype Stmt =
    | VarDecl(name: string, init: Option<Expr>)
    | ExprStmt(x: Expr)
    | Return(value: Option<Expr>)
    | Block(stmts: seq<Stmt>)
    | If(cond: Expr, yes: Option<Stmt>, no: Option<Stmt>)
    | ForOf(v: string, it: Expr, loop: seq<Stmt>)
    | FnDecl(fname: string, params: seq<string>, fbody: seq<Stmt>)

  function Precedence(op: BinOp): nat {
    match op
    case Or => 1
    case And => 2
    case Eq => 3
    case Neq => 3
    case StrictEq => 3
    case StrictNeq => 3
    case Lt => 4
    case Le => 4
    case Gt => 4
    case Ge => 4
    case Add => 5
    case Sub => 5
    case Mul => 6
    case Div => 6
    case Rem => 6
  }
}
