/**
 * Prompt composition (noless/few_shot_prompting.py): the few-shot example tables and
 * their rendering, the chain-of-thought wrappers and the prompt enhancer.
 */
module FewShotPrompting {
  import opened Py

  // ---------------------------------------------------------------------------
  // Python repr of strings and lists of strings
  // ---------------------------------------------------------------------------

  function HexDigit(d: nat): char
    requires d < 16
  {
    if d < 10 then (d + '0' as int) as char else (d - 10 + 'a' as int) as char
  }

  /** One character inside a repr delimited by `quote`. */
  function ReprChar(c: char, quote: char): string {
    if c == quote || c == '\\' then ['\\', c]
    else if c == '\n' then "\\n"
    else if c == '\r' then "\\r"
    else if c == '\t' then "\\t"
    else if c < ' ' || c == '\U{7F}' then ['\\', 'x', HexDigit(c as int / 16), HexDigit(c as int % 16)]
    else [c]
  }

  function ReprBody(s: string, quote: char): string {
    Flatten(seq(|s|, k requires 0 <= k < |s| => ReprChar(s[k], quote)))
  }

  function Flatten(parts: seq<string>): string {
    if parts == [] then "" else parts[0] + Flatten(parts[1..])
  }

  /** `repr(s)`: double quotes only when the text has a single quote and no double quote. */
  function StrRepr(s: string): string {
    var quote := if '\'' in s && '"' !in s then '"' else '\'';
    [quote] + ReprBody(s, quote) + [quote]
  }

  /** Text that repr leaves as it is between the quotes. */
  predicate Plain(s: string) {
    forall k :: 0 <= k < |s| ==> ' ' <= s[k] && s[k] != '\U{7F}' && s[k] != '\'' && s[k] != '"' && s[k] != '\\'
  }

  lemma {:induction false} PlainBody(s: string)
    requires Plain(s)
    ensures ReprBody(s, '\'') == s
  {
    var parts := seq(|s|, k requires 0 <= k < |s| => ReprChar(s[k], '\''));
    if s != [] {
      assert Plain(s[1..]) by {
        forall k | 0 <= k < |s[1..]| ensures ' ' <= s[1..][k] {
          assert s[1..][k] == s[k + 1];
        }
      }
      PlainBody(s[1..]);
      assert parts[1..] == seq(|s[1..]|, k requires 0 <= k < |s[1..]| => ReprChar(s[1..][k], '\''));
      assert parts[0] == [s[0]];
      assert s == [s[0]] + s[1..];
    }
  }

  /** Plain text is shown between single quotes and otherwise unchanged. */
  lemma {:induction false} PlainRepr(s: string)
    requires Plain(s)
    ensures StrRepr(s) == "'" + s + "'"
  {
    PlainBody(s);
    assert '\'' !in s by {
      forall k | 0 <= k < |s| ensures s[k] != '\'' {
      }
    }
  }

  /** `str(xs)` for a list of strings. */
  function ListRepr(xs: seq<string>): string {
    "[" + Join(ReprAll(xs), ", ") + "]"
  }

  function ReprAll(xs: seq<string>): (r: seq<string>)
    ensures |r| == |xs| && forall i :: 0 <= i < |xs| ==> r[i] == StrRepr(xs[i])
  {
    if xs == [] then [] else [StrRepr(xs[0])] + ReprAll(xs[1..])
  }

  /** `str(b).lower()`. */
  function BoolText(b: bool): (r: string)
    ensures r == if b then "true" else "false"
  {
    var text := Lower(if b then "True" else "False");
    assert |text| == (if b then 4 else 5);
    assert text[0] == if b then 't' else 'f';
    text
  }

  // ---------------------------------------------------------------------------
  // Example tables and their numbered rendering
  // ---------------------------------------------------------------------------

  datatype ReviewExample = ReviewExample(
    code: string, valid: bool, issues: seq<string>, suggestions: seq<string>, improvedCode: string)

  /** The examples of model definitions and of training scripts share one shape. */
  datatype DefinitionExample = DefinitionExample(description: string, framework: string, example: string)

  function CodeReviewExamples(): seq<ReviewExample> {
    [
      ReviewExample(
        "\n"
        + "def calculate_sum(numbers):\n"
        + "    result = 0\n"
        + "    for i in numbers:\n"
        + "        result = result + i\n"
        + "    return result\n",
        true,
        ["Missing type hints on function parameters and return value"],
        ["Use list comprehension or sum() built-in instead of manual loop",
         "Add comprehensive docstring explaining function purpose",
         "Consider edge cases like empty lists"],
        "\n"
        + "def calculate_sum(numbers: List[int]) -> int:\n"
        + "    \"\"\"Calculate the sum of a list of numbers.\n"
        + "\n"
        + "    Args:\n"
        + "        numbers: List of integers to sum\n"
        + "\n"
        + "    Returns:\n"
        + "        The sum of all numbers in the list\n"
        + "\n"
        + "    Example:\n"
        + "        >>> calculate_sum([1, 2, 3])\n"
        + "        6\n"
        + "    \"\"\"\n"
        + "    return sum(numbers)\n"),
      ReviewExample(
        "\n"
        + "def get_user_data(user_id):\n"
        + "    db = connect_database()\n"
        + "    query = \"SELECT * FROM users WHERE id = \" + str(user_id)\n"
        + "    result = db.execute(query)\n"
        + "    return result\n",
        false,
        ["Critical SQL injection vulnerability - user input not sanitized",
         "Missing error handling for database connection failures",
         "No type hints on parameters and return value"],
        ["Use parameterized queries to prevent SQL injection",
         "Add try-except for database error handling",
         "Close database connection after use"],
        "\n"
        + "def get_user_data(user_id: int) -> Optional[Dict[str, Any]]:\n"
        + "    \"\"\"Retrieve user data from database safely.\n"
        + "\n"
        + "    Args:\n"
        + "        user_id: ID of the user to retrieve\n"
        + "\n"
        + "    Returns:\n"
        + "        User data dictionary or None if not found\n"
        + "\n"
        + "    Raises:\n"
        + "        DatabaseError: If database connection fails\n"
        + "    \"\"\"\n"
        + "    try:\n"
        + "        db = connect_database()\n"
        + "        result = db.execute(\"SELECT * FROM users WHERE id = ?\", (user_id,))\n"
        + "        return result.fetchone() if result else None\n"
        + "    except DatabaseError as e:\n"
        + "        raise DatabaseError(f\"Failed to fetch user {user_id}: {e}\")\n"
        + "    finally:\n"
        + "        db.close()\n")
    ]
  }

  function ModelDefinitionExamples(): seq<DefinitionExample> {
    [
      DefinitionExample(
        "Image classification model for MNIST dataset",
        "pytorch",
        "\n"
        + "import torch\n"
        + "import torch.nn as nn\n"
        + "from typing import Tuple\n"
        + "\n"
        + "class MNISTClassifier(nn.Module):\n"
        + "    \"\"\"CNN for MNIST digit classification.\"\"\"\n"
        + "\n"
        + "    def __init__(self, num_classes: int = 10):\n"
        + "        super().__init__()\n"
        + "        self.features = nn.Sequential(\n"
        + "            nn.Conv2d(1, 32, kernel_size=3, padding=1),\n"
        + "            nn.ReLU(inplace=True),\n"
        + "            nn.MaxPool2d(2, 2),\n"
        + "            nn.Conv2d(32, 64, kernel_size=3, padding=1),\n"
        + "            nn.ReLU(inplace=True),\n"
        + "            nn.MaxPool2d(2, 2),\n"
        + "        )\n"
        + "        self.classifier = nn.Sequential(\n"
        + "            nn.Linear(64 * 7 * 7, 128),\n"
        + "            nn.ReLU(inplace=True),\n"
        + "            nn.Dropout(0.5),\n"
        + "            nn.Linear(128, num_classes),\n"
        + "        )\n"
        + "\n"
        + "    def forward(self, x: torch.Tensor) -> torch.Tensor:\n"
        + "        x = self.features(x)\n"
        + "        x = x.view(x.size(0), -1)\n"
        + "        x = self.classifier(x)\n"
        + "        return x\n")
    ]
  }

  function TrainingScriptExamples(): seq<DefinitionExample> {
    [
      DefinitionExample(
        "PyTorch training loop with validation",
        "pytorch",
        "\n"
        + "import torch\n"
        + "from tqdm import tqdm\n"
        + "\n"
        + "def train_epoch(model, train_loader, criterion, optimizer, device):\n"
        + "    \"\"\"Train for one epoch.\"\"\"\n"
        + "    model.train()\n"
        + "    total_loss = 0.0\n"
        + "\n"
        + "    for batch_idx, (data, target) in enumerate(tqdm(train_loader)):\n"
        + "        data, target = data.to(device), target.to(device)\n"
        + "\n"
        + "        optimizer.zero_grad()\n"
        + "        output = model(data)\n"
        + "        loss = criterion(output, target)\n"
        + "        loss.backward()\n"
        + "        optimizer.step()\n"
        + "\n"
        + "        total_loss += loss.item()\n"
        + "\n"
        + "    return total_loss / len(train_loader)\n"
        + "\n"
        + "def validate(model, val_loader, criterion, device):\n"
        + "    \"\"\"Validate model performance.\"\"\"\n"
        + "    model.eval()\n"
        + "    total_loss = 0.0\n"
        + "    correct = 0\n"
        + "    total = 0\n"
        + "\n"
        + "    with torch.no_grad():\n"
        + "        for data, target in val_loader:\n"
        + "            data, target = data.to(device), target.to(device)\n"
        + "            output = model(data)\n"
        + "            loss = criterion(output, target)\n"
        + "\n"
        + "            total_loss += loss.item()\n"
        + "            _, predicted = output.max(1)\n"
        + "            correct += predicted.eq(target).sum().item()\n"
        + "            total += target.size(0)\n"
        + "\n"
        + "    accuracy = 100. * correct / total\n"
        + "    avg_loss = total_loss / len(val_loader)\n"
        + "    return avg_loss, accuracy\n")
    ]
  }

  /** The chain-of-thought wrapper for reasoning. */
  function ReasoningTemplate(): string {
    "\n"
    + "Think through this step-by-step:\n"
    + "\n"
    + "1. **Understand**: What is the code trying to do?\n"
    + "2. **Analyze**: What are the potential issues?\n"
    + "3. **Identify**: Which issues are critical vs minor?\n"
    + "4. **Suggest**: What improvements would help?\n"
    + "5. **Provide**: Generate improved code if needed\n"
    + "\n"
    + "Now provide your analysis in JSON format with issues, suggestions, and improved_code.\n"
  }

  /** The chain-of-thought wrapper for validation. */
  function ValidationTemplate(): string {
    "\n"
    + "Validate this code thoroughly:\n"
    + "\n"
    + "1. **Syntax & Imports**: Check for syntax errors and missing imports\n"
    + "2. **Logic**: Is the logic correct and does it match the intent?\n"
    + "3. **Performance**: Are there inefficient patterns?\n"
    + "4. **Security**: Are there security vulnerabilities?\n"
    + "5. **Style**: Does it follow best practices?\n"
    + "\n"
    + "For each category, list specific findings.\n"
  }

  /** The block of review example `i`: its code, then the review as JSON. */
  function ReviewBlock(i: nat, e: ReviewExample): string {
    ReviewOpening(i, e) + ValidLine(e.valid) + ReviewClosing(e)
  }

  function ReviewOpening(i: nat, e: ReviewExample): string {
    "Example " + NatToString(i) + ":\n"
    + ("Code:\n" + e.code + "\n"
    + "Review format (JSON):\n"
    + "{\n")
  }

  function ValidLine(valid: bool): string {
    "  \"valid\": " + BoolText(valid) + ",\n"
  }

  function ReviewClosing(e: ReviewExample): string {
    "  \"issues\": " + ListRepr(e.issues) + ",\n"
    + "  \"suggestions\": " + ListRepr(e.suggestions) + "\n"
    + "}\n\n"
  }

  /** The block of model or training example `i`. */
  function DefinitionBlock(i: nat, e: DefinitionExample): string {
    "Example " + NatToString(i) + ": " + e.description + "\n"
    + "Framework: " + e.framework + "\n"
    + "Code:\n" + e.example + "\n\n"
  }

  /** The blocks of `examples`, numbered from `start` in table order. */
  function Numbered<E>(block: (nat, E) -> string, examples: seq<E>, start: nat): string {
    if examples == [] then "" else block(start, examples[0]) + Numbered(block, examples[1..], start + 1)
  }

  lemma {:induction false} NumberedAppend<E>(block: (nat, E) -> string, examples: seq<E>, e: E, start: nat)
    ensures Numbered(block, examples + [e], start) == Numbered(block, examples, start) + block(start + |examples|, e)
  {
    if examples == [] {
      assert [e][1..] == [];
    } else {
      assert (examples + [e])[1..] == examples[1..] + [e];
      NumberedAppend(block, examples[1..], e, start + 1);
    }
  }

  /**
   * Entry i is rendered as block number start + i, after the blocks of the entries
   * before it and before those of the entries after it.
   */
  lemma {:induction false} NumberedSplit<E>(block: (nat, E) -> string, examples: seq<E>, start: nat, i: nat)
    requires i < |examples|
    ensures Numbered(block, examples, start)
         == Numbered(block, examples[..i], start) + block(start + i, examples[i])
            + Numbered(block, examples[i + 1..], start + i + 1)
  {
    if i == 0 {
      assert examples[..0] == [];
    } else {
      NumberedSplit(block, examples[1..], start + 1, i - 1);
      assert examples[1..][..i - 1] == examples[1..i];
      assert examples[1..][i - 1 + 1..] == examples[i + 1..];
      assert examples[..i] == [examples[0]] + examples[1..i];
      assert examples[..i][1..] == examples[1..i];
    }
  }

  /** Each example's block, with its number, appears in the rendered text. */
  lemma {:induction false} NumberedContains<E>(block: (nat, E) -> string, examples: seq<E>, start: nat, i: nat)
    requires i < |examples|
    ensures Contains(Numbered(block, examples, start), block(start + i, examples[i]))
  {
    NumberedSplit(block, examples, start, i);
    ContainsMiddle(Numbered(block, examples[..i], start), block(start + i, examples[i]),
                   Numbered(block, examples[i + 1..], start + i + 1));
  }

  /** The rendering loop of the three `get_*_examples` methods. */
  method RenderExamples<E>(header: string, block: (nat, E) -> string, examples: seq<E>) returns (text: string)
    ensures text == header + Numbered(block, examples, 1)
    ensures StartsWith(text, header)
  {
    text := header;
    var i := 0;
    while i < |examples|
      invariant 0 <= i <= |examples|
      invariant text == header + Numbered(block, examples[..i], 1)
    {
      NumberedAppend(block, examples[..i], examples[i], 1);
      assert examples[..i + 1] == examples[..i] + [examples[i]];
      text := text + block(i + 1, examples[i]);
      i := i + 1;
    }
    assert examples[..i] == examples;
    StartsWithConcat(header, Numbered(block, examples, 1));
  }

  const ReviewHeader: string := "Examples of good code reviews:\n\n"
  const ModelHeader: string := "Examples of good model definitions:\n\n"
  const TrainingHeader: string := "Examples of good training loops:\n\n"

  /** What `get_code_review_examples` returns: the header, then one block per table entry. */
  function CodeReviewExamplesText(): string {
    ReviewHeader + Numbered(ReviewBlock, CodeReviewExamples(), 1)
  }

  /** What `get_model_examples` returns. */
  function ModelExamplesText(): string {
    ModelHeader + Numbered(DefinitionBlock, ModelDefinitionExamples(), 1)
  }

  /** What `get_training_examples` returns. */
  function TrainingExamplesText(): string {
    TrainingHeader + Numbered(DefinitionBlock, TrainingScriptExamples(), 1)
  }

  /** `get_code_review_examples`. */
  method GetCodeReviewExamples() returns (text: string)
    ensures text == CodeReviewExamplesText()
    ensures StartsWith(text, ReviewHeader)
  {
    text := RenderExamples(ReviewHeader, ReviewBlock, CodeReviewExamples());
  }

  /** `get_model_examples`. */
  method GetModelExamples() returns (text: string)
    ensures text == ModelExamplesText()
    ensures StartsWith(text, ModelHeader)
  {
    text := RenderExamples(ModelHeader, DefinitionBlock, ModelDefinitionExamples());
  }

  /** `get_training_examples`. */
  method GetTrainingExamples() returns (text: string)
    ensures text == TrainingExamplesText()
    ensures StartsWith(text, TrainingHeader)
  {
    text := RenderExamples(TrainingHeader, DefinitionBlock, TrainingScriptExamples());
  }

  /**
   * A review block opens with its number, and shows the example's `valid` flag in lower
   * case as a JSON boolean.
   */
  lemma {:induction false} ReviewBlockShows(i: nat, e: ReviewExample)
    ensures StartsWith(ReviewBlock(i, e), "Example " + NatToString(i) + ":\n")
    ensures Contains(ReviewBlock(i, e), "  \"valid\": " + (if e.valid then "true" else "false") + ",\n")
  {
    var heading := "Example " + NatToString(i) + ":\n";
    var opening := ReviewOpening(i, e);
    ContainsMiddle(opening, ValidLine(e.valid), ReviewClosing(e));
    StartsWithConcat(heading, opening[|heading|..] + ValidLine(e.valid) + ReviewClosing(e));
    assert opening == heading + opening[|heading|..];
  }

  /** A model or training block opens with its number and description. */
  lemma {:induction false} DefinitionBlockShows(i: nat, e: DefinitionExample)
    ensures StartsWith(DefinitionBlock(i, e), "Example " + NatToString(i) + ": " + e.description + "\n")
    ensures Contains(DefinitionBlock(i, e), e.example)
  {
    DefinitionBlockOpens(i, e);
    DefinitionBlockHasCode(i, e);
  }

  lemma {:induction false} DefinitionBlockOpens(i: nat, e: DefinitionExample)
    ensures StartsWith(DefinitionBlock(i, e), "Example " + NatToString(i) + ": " + e.description + "\n")
  {
    var heading := "Example " + NatToString(i) + ": " + e.description + "\n";
    assert DefinitionBlock(i, e) == heading + ("Framework: " + e.framework + "\n" + "Code:\n" + e.example + "\n\n");
    StartsWithConcat(heading, "Framework: " + e.framework + "\n" + "Code:\n" + e.example + "\n\n");
  }

  lemma {:induction false} DefinitionBlockHasCode(i: nat, e: DefinitionExample)
    ensures Contains(DefinitionBlock(i, e), e.example)
  {
    var before := "Example " + NatToString(i) + ": " + e.description + "\n" + "Framework: " + e.framework + "\n" + "Code:\n";
    assert DefinitionBlock(i, e) == before + e.example + "\n\n";
    ContainsMiddle(before, e.example, "\n\n");
  }

  // ---------------------------------------------------------------------------
  // Chain of thought
  // ---------------------------------------------------------------------------

  /** The template `enhance_prompt` picks. */
  function Template(thinkingType: string): string {
    if thinkingType == "validation" then ValidationTemplate() else ReasoningTemplate()
  }

  const TaskIntro: string := "\n\nOriginal task:\n"
  const Reminder: string := "\n\nRemember to think through each step before providing your final answer.\n"

  /** What `enhance_prompt` puts after the template: the original prompt and the reminder. */
  function Framing(originalPrompt: string): (r: string)
    ensures Contains(r, originalPrompt)
  {
    ContainsMiddle(TaskIntro, originalPrompt, Reminder);
    TaskIntro + originalPrompt + Reminder
  }

  /** A template put in front of the framed prompt. */
  function Wrap(template: string, originalPrompt: string): string {
    template + Framing(originalPrompt)
  }

  /** `enhance_prompt`: the template, then the original prompt, then the reminder. */
  function EnhancePrompt(originalPrompt: string, thinkingType: string): string {
    Wrap(Template(thinkingType), originalPrompt)
  }

  /** The validation template opens with a line break and then 'V'. */
  lemma {:induction false} ValidationOpening()
    ensures |ValidationTemplate()| > 1 && ValidationTemplate()[0] == '\n' && ValidationTemplate()[1] == 'V'
  {
  }

  /** The reasoning template opens with a line break and then 'T'. */
  lemma {:induction false} ReasoningOpening()
    ensures |ReasoningTemplate()| > 1 && ReasoningTemplate()[0] == '\n' && ReasoningTemplate()[1] == 'T'
  {
  }

  lemma {:induction false} StartsWithConcat(t: string, rest: string)
    ensures StartsWith(t + rest, t)
  {
    assert (t + rest)[..|t|] == t;
  }

  /** A text that starts with one template cannot start with a template that differs from it at index 1. */
  lemma {:induction false} StartsWithOnlyOne(r: string, t: string, u: string)
    requires StartsWith(r, t) && |t| > 1 && |u| > 1 && t[1] != u[1]
    ensures !StartsWith(r, u)
  {
    assert r[1] == r[..|t|][1] == t[1];
  }

  /** Choosing between two texts that differ at index 1 shows in the prefix of the result. */
  lemma {:induction false} ChoiceShows(chosen: bool, v: string, q: string, rest: string)
    requires |v| > 1 && |q| > 1 && v[1] != q[1]
    ensures StartsWith((if chosen then v else q) + rest, v) <==> chosen
    ensures !chosen ==> StartsWith((if chosen then v else q) + rest, q)
  {
    var t := if chosen then v else q;
    StartsWithConcat(t, rest);
    if !chosen {
      StartsWithOnlyOne(t + rest, q, v);
    }
  }

  /**
   * The validation template is used if and only if the type is "validation"; every other
   * type, "reasoning" or not, gets the reasoning template. The original prompt is kept.
   */
  lemma {:induction false} EnhancePromptTemplate(originalPrompt: string, thinkingType: string)
    ensures StartsWith(EnhancePrompt(originalPrompt, thinkingType), ValidationTemplate()) <==> thinkingType == "validation"
    ensures thinkingType != "validation" ==> StartsWith(EnhancePrompt(originalPrompt, thinkingType), ReasoningTemplate())
    ensures Contains(EnhancePrompt(originalPrompt, thinkingType), originalPrompt)
  {
    ValidationOpening();
    ReasoningOpening();
    ChoiceShows(thinkingType == "validation", ValidationTemplate(), ReasoningTemplate(), Framing(originalPrompt));
    ContainsAfter(Template(thinkingType), Framing(originalPrompt), originalPrompt);
  }

  /** `create_step_by_step_prompt`. */
  function StepByStepPrompt(code: string, task: string): (r: string)
    ensures Contains(r, code) && Contains(r, task)
  {
    var head := "\nAnalyze this code step-by-step:\n\n";
    var mid := "\n\nTask: ";
    var tail := "\n\nPlease provide:\n"
      + "1. Initial Assessment (what the code does)\n"
      + "2. Detailed Analysis (line-by-line review)\n"
      + "3. Issues Found (with severity)\n"
      + "4. Recommendations (improvements)\n"
      + "5. Improved Code (if applicable)\n"
      + "\n"
      + "Format your response as JSON with these exact keys.\n";
    ContainsMiddle(head, code, mid + task + tail);
    assert head + code + (mid + task + tail) == head + code + mid + task + tail;
    ContainsMiddle(head + code + mid, task, tail);
    head + code + mid + task + tail
  }

  // ---------------------------------------------------------------------------
  // PromptEnhancer
  // ---------------------------------------------------------------------------

  /** `context.get(key)` rendered by an f-string: a missing key shows as None. */
  function ContextText(context: map<string, string>, key: string, default: string): string {
    if key in context then context[key] else default
  }

  /** The review prompt before any enhancement. */
  function BaseReviewPrompt(code: string, fileType: string, context: map<string, string>): (r: string)
    ensures Contains(r, code)
    ensures |r| > 0 && r[0] == 'R'
  {
    var head := "Review this " + fileType + " file for a " + ContextText(context, "task", "ML") + " project:\n\n"
      + "```python\n";
    var tail := "\n```\n\n"
      + "Context:\n"
      + "- Task: " + ContextText(context, "task", "None") + "\n"
      + "- Framework: " + ContextText(context, "framework", "None") + "\n"
      + "- Dataset: " + ContextText(context, "dataset", "None") + "\n"
      + "\n"
      + "Provide JSON with: valid (bool), issues (array), suggestions (array), improved_code (string).\n";
    ContainsMiddle(head, code, tail);
    head + code + tail
  }

  /** The generation prompt before any enhancement. */
  function BaseGenerationPrompt(task: string, framework: string, dataset: string): (r: string)
    ensures |r| > 0 && r[0] == 'G'
  {
    "Generate a " + framework + " model for " + task + " on " + dataset + " dataset.\n"
    + "\n"
    + "Include:\n"
    + "1. Proper imports\n"
    + "2. Type hints\n"
    + "3. Docstrings\n"
    + "4. Error handling\n"
    + "5. Configuration comments\n"
  }

  /**
   * The composition `enhance_review_prompt` performs on a base prompt: the examples in
   * front when few-shot is on, then the validation wrapper around everything when chain
   * of thought is on.
   */
  function ComposeReview(useFewShot: bool, useCot: bool, examples: string, base: string): string {
    var inner := if useFewShot then examples + base else base;
    if useCot then Wrap(ValidationTemplate(), inner) else inner
  }

  /** The composition `enhance_generation_prompt` performs: the examples in front when few-shot is on. */
  function ComposeGeneration(useFewShot: bool, examples: string, base: string): string {
    if useFewShot then examples + base else base
  }

  /** The model examples text opens with its header. */
  lemma {:induction false} ModelExamplesLead()
    ensures StartsWith(ModelExamplesText(), ModelHeader)
  {
    StartsWithConcat(ModelHeader, Numbered(DefinitionBlock, ModelDefinitionExamples(), 1));
  }

  /** A text that starts with a header of the example texts starts with an 'E'. */
  lemma {:induction false} HeaderStart(text: string, header: string)
    requires header == ReviewHeader || header == ModelHeader
    requires StartsWith(text, header)
    ensures |text| > 0 && text[0] == 'E'
  {
    assert text[0] == text[..|header|][0];
  }

  /** A text cannot start with a template when its first character is not a line break. */
  lemma {:induction false} NoTemplateStart(r: string, t: string)
    requires |t| > 0 && t[0] == '\n' && |r| > 0 && r[0] != '\n'
    ensures !StartsWith(r, t)
  {
  }

  /** Whatever the wrapped text contains, the wrapped prompt contains too, whatever the template. */
  lemma {:induction false} WrapContains(template: string, inner: string, part: string)
    requires Contains(inner, part)
    ensures Contains(Wrap(template, inner), part)
  {
    ContainsWithin(TaskIntro, inner, Reminder, part);
    ContainsAfter(template, Framing(inner), part);
  }

  /** Whatever the original prompt contains, the enhanced prompt contains too. */
  lemma {:induction false} EnhancePromptContains(originalPrompt: string, thinkingType: string, part: string)
    requires Contains(originalPrompt, part)
    ensures Contains(EnhancePrompt(originalPrompt, thinkingType), part)
  {
    WrapContains(Template(thinkingType), originalPrompt, part);
  }

  /** Whatever the base prompt contains, the composed review prompt contains too. */
  lemma {:induction false} ComposeReviewContains(useFewShot: bool, useCot: bool, examples: string, base: string, part: string)
    requires Contains(base, part)
    ensures Contains(ComposeReview(useFewShot, useCot, examples, base), part)
  {
    var inner := if useFewShot then examples + base else base;
    if useFewShot {
      ContainsAfter(examples, base, part);
    }
    if useCot {
      WrapContains(ValidationTemplate(), inner, part);
    }
  }

  /**
   * For any examples text that starts with the review header and the base review prompt,
   * the validation template leads exactly with chain of thought, and without it the
   * examples lead exactly with few-shot.
   */
  lemma {:induction false} ComposeReviewLeads(useFewShot: bool, useCot: bool, examples: string, base: string)
    requires StartsWith(examples, ReviewHeader)
    requires |base| > 0 && base[0] == 'R'
    ensures StartsWith(ComposeReview(useFewShot, useCot, examples, base), ValidationTemplate()) <==> useCot
    ensures !useCot ==> (StartsWith(ComposeReview(useFewShot, useCot, examples, base), examples) <==> useFewShot)
  {
    var inner := if useFewShot then examples + base else base;
    HeaderStart(examples, ReviewHeader);
    ValidationOpening();
    if useCot {
      StartsWithConcat(ValidationTemplate(), Framing(inner));
    } else {
      assert inner[0] != '\n';
      NoTemplateStart(inner, ValidationTemplate());
      if useFewShot {
        StartsWithConcat(examples, base);
      }
    }
  }

  lemma {:induction false} ContainsItself(s: string)
    ensures Contains(s, s)
  {
    ContainsMiddle("", s, "");
    assert "" + s + "" == s;
  }

  lemma {:induction false} ComposeReviewKeepsItsBase(useFewShot: bool, useCot: bool, examples: string, base: string)
    ensures Contains(ComposeReview(useFewShot, useCot, examples, base), base)
  {
    ContainsItself(base);
    ComposeReviewContains(useFewShot, useCot, examples, base, base);
  }

  /** Prepending examples that start differently from the base is visible at the front. */
  lemma {:induction false} PrependShape(useFewShot: bool, examples: string, base: string)
    requires |examples| > 0 && |base| > 0 && examples[0] != base[0]
    ensures var r := if useFewShot then examples + base else base;
      && |r| > 0 && r[0] == (if useFewShot then examples[0] else base[0])
      && (StartsWith(r, examples) <==> useFewShot)
      && Contains(r, base)
  {
    ContainsItself(base);
    if useFewShot {
      StartsWithConcat(examples, base);
      ContainsAfter(examples, base, base);
    }
  }

  /**
   * A generation prompt leads with the examples exactly when few-shot is on, keeps its base
   * prompt, and starts with the header's 'E' or the base prompt's 'G', never a line break.
   */
  lemma {:induction false} ComposeGenerationShape(useFewShot: bool, examples: string, base: string)
    requires StartsWith(examples, ModelHeader)
    requires |base| > 0 && base[0] == 'G'
    ensures |ComposeGeneration(useFewShot, examples, base)| > 0
    ensures ComposeGeneration(useFewShot, examples, base)[0] == (if useFewShot then 'E' else 'G')
    ensures StartsWith(ComposeGeneration(useFewShot, examples, base), examples) <==> useFewShot
    ensures Contains(ComposeGeneration(useFewShot, examples, base), base)
  {
    HeaderStart(examples, ModelHeader);
    PrependShape(useFewShot, examples, base);
  }

  /** A generation prompt is never wrapped in the validation template. */
  lemma {:induction false} GenerationWithoutValidation(useFewShot: bool, examples: string, base: string)
    requires StartsWith(examples, ModelHeader)
    requires |base| > 0 && base[0] == 'G'
    ensures !StartsWith(ComposeGeneration(useFewShot, examples, base), ValidationTemplate())
  {
    ComposeGenerationShape(useFewShot, examples, base);
    ValidationOpening();
    NoTemplateStart(ComposeGeneration(useFewShot, examples, base), ValidationTemplate());
  }

  /** A generation prompt is never wrapped in the reasoning template. */
  lemma {:induction false} GenerationWithoutReasoning(useFewShot: bool, examples: string, base: string)
    requires StartsWith(examples, ModelHeader)
    requires |base| > 0 && base[0] == 'G'
    ensures !StartsWith(ComposeGeneration(useFewShot, examples, base), ReasoningTemplate())
  {
    ComposeGenerationShape(useFewShot, examples, base);
    ReasoningOpening();
    NoTemplateStart(ComposeGeneration(useFewShot, examples, base), ReasoningTemplate());
  }
}

/**
 * `PromptEnhancer`: the review and generation prompts built from the base prompts, the
 * example texts and the chain-of-thought wrapper of `FewShotPrompting`.
 */
module PromptEnhancement {
  import opened Py
  import opened FewShotPrompting

  /** A `PromptEnhancer`; its two switches are fixed at construction. */
  datatype PromptEnhancer = PromptEnhancer(useFewShot: bool := true, useCot: bool := true)
  {
    /** `enhance_review_prompt`. */
    function EnhanceReviewPrompt(code: string, fileType: string, context: map<string, string>): string {
      ComposeReview(useFewShot, useCot, CodeReviewExamplesText(), BaseReviewPrompt(code, fileType, context))
    }

    /** `enhance_generation_prompt`: chain of thought is never applied here. */
    function EnhanceGenerationPrompt(task: string, framework: string, dataset: string): string {
      ComposeGeneration(useFewShot, ModelExamplesText(), BaseGenerationPrompt(task, framework, dataset))
    }
  }

  /** The model examples lead an enhanced generation prompt exactly when few-shot is on. */
  lemma {:induction false} GenerationPromptExamplesLead(p: PromptEnhancer, task: string, framework: string, dataset: string)
    ensures StartsWith(p.EnhanceGenerationPrompt(task, framework, dataset), ModelExamplesText()) <==> p.useFewShot
  {
    ModelExamplesLead();
    ComposeGenerationShape(p.useFewShot, ModelExamplesText(), BaseGenerationPrompt(task, framework, dataset));
  }

  /** The base generation prompt is always part of the enhanced one. */
  lemma {:induction false} GenerationPromptKeepsBase(p: PromptEnhancer, task: string, framework: string, dataset: string)
    ensures Contains(p.EnhanceGenerationPrompt(task, framework, dataset), BaseGenerationPrompt(task, framework, dataset))
  {
    ModelExamplesLead();
    ComposeGenerationShape(p.useFewShot, ModelExamplesText(), BaseGenerationPrompt(task, framework, dataset));
  }

  /** An enhanced review prompt is the review composition over the review examples text. */
  lemma {:induction false} ReviewPromptComposed(p: PromptEnhancer, code: string, fileType: string, context: map<string, string>)
    ensures p.EnhanceReviewPrompt(code, fileType, context)
         == ComposeReview(p.useFewShot, p.useCot, CodeReviewExamplesText(), BaseReviewPrompt(code, fileType, context))
  {
  }

  /** The code under review is always part of the enhanced review prompt. */
  lemma {:induction false} ReviewPromptHasCode(p: PromptEnhancer, code: string, fileType: string, context: map<string, string>)
    ensures Contains(p.EnhanceReviewPrompt(code, fileType, context), code)
  {
    ReviewPromptComposed(p, code, fileType, context);
    ComposeReviewContains(p.useFewShot, p.useCot, CodeReviewExamplesText(), BaseReviewPrompt(code, fileType, context), code);
  }

  /** The validation wrapper is never applied to a generation prompt. */
  lemma {:induction false} GenerationPromptPlain(p: PromptEnhancer, task: string, framework: string, dataset: string)
    ensures !StartsWith(p.EnhanceGenerationPrompt(task, framework, dataset), ValidationTemplate())
  {
    ModelExamplesLead();
    GenerationWithoutValidation(p.useFewShot, ModelExamplesText(), BaseGenerationPrompt(task, framework, dataset));
  }

  /** The review examples text opens with its header. */
  lemma {:induction false} ReviewExamplesLead()
    ensures StartsWith(CodeReviewExamplesText(), ReviewHeader)
  {
    StartsWithConcat(ReviewHeader, Numbered(ReviewBlock, CodeReviewExamples(), 1));
  }
}
