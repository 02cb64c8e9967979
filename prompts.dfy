/**
 * The fixed instruction texts the nodes wrap around the task's data. The
 * nodes take them as a parameter, so every property proved about a node or
 * a run holds whatever the wording; `Source` is the wording the program uses.
 */
module Prompts {
  datatype Texts = Texts(
    planner: string,
    assistantLead: string,
    assistantTail: string,
    replanLead: string,
    replanTail: string,
    feedbackHeader: string,
    reviewLead: string)

  const Source := Texts(
    "For the given objective, come up with a simple step by step plan. This plan should involve individual tasks, that if executed correctly will yield the correct answer. Do not add any superfluous steps. The result of the final step should be the final answer. Make sure that each step has all the information needed - do not skip steps. You have tools for web search, audio transcription, youtube video transcription and python code execution at your disposal. For simple tasks you MUST not generate many steps. Single step plan is also good. ",
    "You are an AI assistant anwering questions. Your goal is get closer to answering following question:\n",
    "\n\nWhen doing web search, be very specific and precise with your queries and specify all the details - language, year, etc. When generating Python code, do not continue, until you generate syntatically correct code.",
    "For the given objective, come up with a simple step by step plan. This plan should involve individual tasks, that if executed correctly will yield the correct answer. Do not add any superfluous steps. The result of the final step should be the final answer. Make sure that each step has all the information needed - do not skip steps.\n\nYour objective was this:\n",
    "\n\nUpdate your plan accordingly. If no more steps are needed and you MUST return to the user, then respond with that. Do NOT come up with answer by yourself. Otherwise, fill out the plan. Only add steps to the plan that still NEED to be done. Do not return previously done steps as part of the plan. Answer has to be formatted as specified in the question. Be very concise and output only the answer.",
    "\n\nPay most attention to following feedback. If feedback mentions content issues, create new plan and let it rework.\n",
    "You are a format reviewer. Your role is to check whether the assistant's answer matches exactly the required structure. Except requirement directly in the question, the answer has to be short, concise and to the point. It should contain only the requested information without additional words. No additional puctuation and words are permitted. Decline any leading up phrases. Require perfecetion. Focus only on formatting, not on verifying the facts or contents. If the format does not match, briefly explain what should be adjusted.\n\nThe question:\n")
}
